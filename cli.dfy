/**
 * The command line of the Backlog client (`main` in
 * plugins/backlog-skill/scripts/backlog.ts) as a decision: the arguments
 * after the script name and the two environment values select a usage error,
 * the help text, an error message, or one planned request; the reply to that
 * request then decides what is printed.
 */
module Cli {
  import opened Wrappers
  import opened Numbers
  import opened Form
  import opened Api

  // ---------------------------------------------------------------------------
  // Flags

  predicate StartsWith(s: string, p: string) {
    |p| <= |s| && s[..|p|] == p
  }

  /** A flag prefix such as `--count=`: it ends in `=` and has no other `=`. */
  predicate FlagPrefix(p: string) {
    |p| > 0 && p[|p| - 1] == '=' && forall i :: 0 <= i < |p| - 1 ==> p[i] != '='
  }

  /** An argument starts with at most one flag prefix. */
  lemma OnePrefix(a: string, p: string, q: string)
    requires FlagPrefix(p) && FlagPrefix(q) && StartsWith(a, p) && StartsWith(a, q)
    ensures p == q
  {
  }

  /** The text up to the first `=`, or all of it. */
  function Field(s: string): (r: string)
    ensures |r| <= |s| && r == s[..|r|]
    ensures forall i :: 0 <= i < |r| ==> r[i] != '='
    ensures |r| < |s| ==> s[|r|] == '='
  {
    if s == [] || s[0] == '=' then [] else [s[0]] + Field(s[1..])
  }

  /** `s.split("=")[1]`: the text between the first and the second `=`. */
  function SecondField(s: string): (r: string)
    requires '=' in s
    ensures exists i :: 0 <= i < |s| && s[i] == '=' && '=' !in s[..i] && r == Field(s[i + 1..])
  {
    var k := |Field(s)|;
    assert s[..k] == Field(s);
    Field(s[k + 1..])
  }

  /** For an argument that starts with a flag prefix, the value is what follows the prefix, up to the next `=`. */
  lemma FlagValue(a: string, p: string)
    requires FlagPrefix(p) && StartsWith(a, p)
    ensures '=' in a && SecondField(a) == Field(a[|p|..])
  {
    var k := |p| - 1;
    assert a[..|p|] == p;
    assert a[k] == '=' by { assert a[..|p|][k] == a[k]; }
    forall i | 0 <= i < k
      ensures a[i] != '='
    {
      assert a[..|p|][i] == a[i];
    }
    FieldLength(a, k);
  }

  lemma {:induction false} FieldLength(s: string, k: nat)
    requires k < |s| && s[k] == '=' && forall i :: 0 <= i < k ==> s[i] != '='
    ensures |Field(s)| == k
  {
    if k > 0 {
      FieldLength(s[1..], k - 1);
    }
  }

  /** A prefix whose last character is `=`. */
  predicate EndsInEquals(p: string) {
    |p| > 0 && p[|p| - 1] == '='
  }

  /** `arg.split("=")[1]` for an argument already known to start with `p`. */
  function FlagText(a: string, p: string): string
    requires EndsInEquals(p) && StartsWith(a, p)
  {
    assert a[|p| - 1] == p[|p| - 1];
    SecondField(a)
  }

  /** The last argument that starts with `p`, if any. */
  function LastFlag(args: seq<string>, p: string): (r: Option<string>)
    ensures r.None? <==> forall i :: 0 <= i < |args| ==> !StartsWith(args[i], p)
    ensures r.Some? ==> StartsWith(r.value, p)
    ensures r.Some? ==>
      exists i :: 0 <= i < |args| && args[i] == r.value && forall j :: i < j < |args| ==> !StartsWith(args[j], p)
  {
    if args == [] then None
    else if StartsWith(args[|args| - 1], p) then Some(args[|args| - 1])
    else
      var r := LastFlag(args[..|args| - 1], p);
      assert forall i :: 0 <= i < |args| - 1 ==> args[..|args| - 1][i] == args[i];
      r
  }

  lemma LastFlagStep(args: seq<string>, i: nat, p: string)
    requires i < |args|
    ensures LastFlag(args[..i + 1], p) ==
      if StartsWith(args[i], p) then Some(args[i]) else LastFlag(args[..i], p)
  {
    assert args[..i + 1][..i] == args[..i];
  }

  const ProjectFlag := "--project="
  const StatusFlag := "--status="
  const PriorityFlag := "--priority="
  const AssigneeFlag := "--assignee="
  const KeywordFlag := "--keyword="
  const CountFlag := "--count="
  const OffsetFlag := "--offset="
  const SortFlag := "--sort="
  const OrderFlag := "--order="

  /** The `get-issues` flags, in the order the `else if` chain tests them. */
  const IssueFlags: seq<string> :=
    [ProjectFlag, StatusFlag, PriorityFlag, AssigneeFlag, KeywordFlag, CountFlag, OffsetFlag, SortFlag, OrderFlag]

  lemma IssueFlagsArePrefixes()
    ensures forall k :: 0 <= k < |IssueFlags| ==> FlagPrefix(IssueFlags[k])
  {
    assert FlagPrefix(ProjectFlag);
    assert FlagPrefix(StatusFlag);
    assert FlagPrefix(PriorityFlag);
    assert FlagPrefix(AssigneeFlag);
    assert FlagPrefix(KeywordFlag);
    assert FlagPrefix(CountFlag);
    assert FlagPrefix(OffsetFlag);
    assert FlagPrefix(SortFlag);
    assert FlagPrefix(OrderFlag);
  }

  /** No argument matches two branches of the chain, so the order of the tests does not matter. */
  lemma IssueFlagsExclusive(a: string)
    ensures forall j, k ::
      (0 <= j < |IssueFlags| && 0 <= k < |IssueFlags| && StartsWith(a, IssueFlags[j]) && StartsWith(a, IssueFlags[k]))
      ==> j == k
  {
    IssueFlagsArePrefixes();
    forall j, k | 0 <= j < |IssueFlags| && 0 <= k < |IssueFlags| &&
      StartsWith(a, IssueFlags[j]) && StartsWith(a, IssueFlags[k])
      ensures j == k
    {
      OnePrefix(a, IssueFlags[j], IssueFlags[k]);
      assert IssueFlags[j] == IssueFlags[k];
      assert |IssueFlags[j]| == |IssueFlags[k]| && IssueFlags[j][2] == IssueFlags[k][2] &&
             IssueFlags[j][3] == IssueFlags[k][3];
    }
  }

  /**
   * Which branch of the `else if` chain of `get-issues` an argument takes:
   * the index in `IssueFlags` of the first flag it starts with, or
   * `|IssueFlags|` when it starts with none and is ignored.
   */
  function Branch(a: string): (k: nat)
    ensures k <= |IssueFlags|
    ensures k < |IssueFlags| ==> StartsWith(a, IssueFlags[k])
    ensures k == |IssueFlags| ==> forall j :: 0 <= j < |IssueFlags| ==> !StartsWith(a, IssueFlags[j])
  {
    if StartsWith(a, ProjectFlag) then 0
    else if StartsWith(a, StatusFlag) then 1
    else if StartsWith(a, PriorityFlag) then 2
    else if StartsWith(a, AssigneeFlag) then 3
    else if StartsWith(a, KeywordFlag) then 4
    else if StartsWith(a, CountFlag) then 5
    else if StartsWith(a, OffsetFlag) then 6
    else if StartsWith(a, SortFlag) then 7
    else if StartsWith(a, OrderFlag) then 8
    else 9
  }

  /** The chain's order never matters: an argument takes the branch of whichever flag it starts with. */
  lemma BranchOfFlag(a: string, k: nat)
    requires k < |IssueFlags| && StartsWith(a, IssueFlags[k])
    ensures Branch(a) == k
  {
    IssueFlagsExclusive(a);
  }

  /** The last argument that takes branch `k`. */
  function LastInBranch(args: seq<string>, k: nat): (r: Option<string>)
    ensures r.Some? ==> Branch(r.value) == k
  {
    if args == [] then None
    else if Branch(args[|args| - 1]) == k then Some(args[|args| - 1])
    else LastInBranch(args[..|args| - 1], k)
  }

  /** The branch of a flag collects exactly the arguments that start with it. */
  lemma {:induction false} LastInBranchIsLastFlag(args: seq<string>, k: nat)
    requires k < |IssueFlags|
    ensures LastInBranch(args, k) == LastFlag(args, IssueFlags[k])
  {
    if args != [] {
      LastInBranchIsLastFlag(args[..|args| - 1], k);
      if StartsWith(args[|args| - 1], IssueFlags[k]) {
        BranchOfFlag(args[|args| - 1], k);
      }
    }
  }

  /** The value of the last argument of branch `k`, as `arg.split("=")[1]`. */
  function BranchValue(args: seq<string>, k: nat): Option<string>
    requires k < |IssueFlags|
  {
    IssueFlagsArePrefixes();
    match LastInBranch(args, k)
    case None => None
    case Some(a) => Some(FlagText(a, IssueFlags[k]))
  }

  /** `[parseInt(value)]`. */
  function AsList(v: Option<string>): Option<seq<Num>> {
    if v.Some? then Some([ParseInt(v.value)]) else None
  }

  /** `parseInt(value)`. */
  function AsNum(v: Option<string>): Option<Num> {
    if v.Some? then Some(ParseInt(v.value)) else None
  }

  /**
   * The search options the `get-issues` flags select: each option is set
   * from the last argument of its branch; there is no flag for `issueTypeId`.
   */
  function IssueOptionsOf(args: seq<string>): (o: IssueOptions)
    ensures o.issueTypeId.None?
    ensures o.projectId.Some? ==> |o.projectId.value| == 1
    ensures o.statusId.Some? ==> |o.statusId.value| == 1
    ensures o.priorityId.Some? ==> |o.priorityId.value| == 1
    ensures o.assigneeId.Some? ==> |o.assigneeId.value| == 1
  {
    IssueOptions(AsList(BranchValue(args, 0)), None, AsList(BranchValue(args, 1)), AsList(BranchValue(args, 2)),
                 AsList(BranchValue(args, 3)), BranchValue(args, 4), AsNum(BranchValue(args, 5)),
                 AsNum(BranchValue(args, 6)), BranchValue(args, 7), BranchValue(args, 8))
  }

  lemma BranchValueStep(args: seq<string>, i: nat)
    requires i < |args|
    ensures forall k :: 0 <= k < |IssueFlags| ==>
      BranchValue(args[..i + 1], k) ==
      if Branch(args[i]) == k then Some(FlagText(args[i], IssueFlags[k])) else BranchValue(args[..i], k)
  {
    assert args[..i + 1][..i] == args[..i];
  }

  /** The `for (const arg of args.slice(1))` loop of `get-issues`. */
  method ParseIssueFlags(args: seq<string>) returns (options: IssueOptions)
    ensures options == IssueOptionsOf(args)
  {
    options := NoIssueOptions;
    for i := 0 to |args|
      invariant options == IssueOptionsOf(args[..i])
    {
      var arg := args[i];
      BranchValueStep(args, i);
      if StartsWith(arg, ProjectFlag) {
        options := options.(projectId := Some([ParseInt(FlagText(arg, ProjectFlag))]));
      } else if StartsWith(arg, StatusFlag) {
        options := options.(statusId := Some([ParseInt(FlagText(arg, StatusFlag))]));
      } else if StartsWith(arg, PriorityFlag) {
        options := options.(priorityId := Some([ParseInt(FlagText(arg, PriorityFlag))]));
      } else if StartsWith(arg, AssigneeFlag) {
        options := options.(assigneeId := Some([ParseInt(FlagText(arg, AssigneeFlag))]));
      } else if StartsWith(arg, KeywordFlag) {
        options := options.(keyword := Some(FlagText(arg, KeywordFlag)));
      } else if StartsWith(arg, CountFlag) {
        options := options.(count := Some(ParseInt(FlagText(arg, CountFlag))));
      } else if StartsWith(arg, OffsetFlag) {
        options := options.(offset := Some(ParseInt(FlagText(arg, OffsetFlag))));
      } else if StartsWith(arg, SortFlag) {
        options := options.(sort := Some(FlagText(arg, SortFlag)));
      } else if StartsWith(arg, OrderFlag) {
        options := options.(order := Some(FlagText(arg, OrderFlag)));
      }
    }
    assert args[..|args|] == args;
  }

  /**
   * For a repeated flag the last occurrence wins, whatever other flags or
   * ignored arguments come between: each option is the value of the last
   * argument that starts with its flag.
   */
  lemma IssueOptionsLastWins(args: seq<string>, k: nat)
    requires k < |IssueFlags|
    ensures LastFlag(args, IssueFlags[k]).None? ==> BranchValue(args, k).None?
    ensures LastFlag(args, IssueFlags[k]).Some? ==>
      BranchValue(args, k) == Some(Field(LastFlag(args, IssueFlags[k]).value[|IssueFlags[k]|..]))
  {
    LastInBranchIsLastFlag(args, k);
    IssueFlagsArePrefixes();
    if LastFlag(args, IssueFlags[k]).Some? {
      FlagValue(LastFlag(args, IssueFlags[k]).value, IssueFlags[k]);
    }
  }

  /** `get-notifications`: `parseInt` of the last `--count=` value, 20 when there is none. */
  function NotificationCountOf(args: seq<string>): (n: Num)
    ensures (forall i :: 0 <= i < |args| ==> !StartsWith(args[i], CountFlag)) <==> n == Int(20) && LastFlag(args, CountFlag).None?
    ensures LastFlag(args, CountFlag).Some? ==> n == ParseInt(Field(LastFlag(args, CountFlag).value[|CountFlag|..]))
  {
    assert FlagPrefix(CountFlag);
    match LastFlag(args, CountFlag)
    case None => Int(20)
    case Some(a) => FlagValue(a, CountFlag); ParseInt(FlagText(a, CountFlag))
  }

  /** The `for (const arg of args.slice(1))` loop of `get-notifications`. */
  method NotificationCount(args: seq<string>) returns (count: Num)
    ensures count == NotificationCountOf(args)
  {
    count := Int(20);
    for i := 0 to |args|
      invariant count == NotificationCountOf(args[..i])
    {
      var arg := args[i];
      LastFlagStep(args, i, CountFlag);
      if StartsWith(arg, CountFlag) {
        count := ParseInt(FlagText(arg, CountFlag));
      }
    }
    assert args[..|args|] == args;
  }

  // ---------------------------------------------------------------------------
  // Dispatch

  /** The two environment values `getConfig` reads. */
  datatype Env = Env(domain: Option<string>, apiKey: Option<string>)

  /**
   * What `JSON.parse` and the builder make of a payload argument: the
   * parsed parameters, a `SyntaxError` with its message, or another error
   * thrown before any request is sent (a payload such as `null`).
   */
  datatype Parse<T> = Parsed(value: T) | SyntaxError(message: string) | Unusable(message: string)

  /**
   * What `main` decides before any request is sent. A planned request of
   * `create-issue` or `update-issue` keeps the raw payload argument, which
   * the `catch` around the call quotes.
   */
  datatype Decision =
    | UsageError
    | ShowHelp
    | Rejected(message: string)
    | Planned(request: Request, payload: Option<string>)

  /** `args[i]`, `undefined` past the end. */
  function Arg(args: seq<string>, i: nat): Option<string> {
    if i < |args| then Some(args[i]) else None
  }

  const ProjectRequired := "projectIdOrKey required"
  const IssueRequired := "issueIdOrKey required"
  const JsonRequired := "JSON params required"
  const ContentRequired := "content required"

  /** The message that replaces a `SyntaxError` caught around `create-issue` and `update-issue`. */
  function InvalidJson(message: string, received: string): string {
    "Invalid JSON: " + message + "\nReceived: " + received
  }

  /** An endpoint without query pairs. */
  function Bare(path: string): Endpoint {
    Endpoint(path, [])
  }

  /** A `callApi` getter, planned. */
  function Fetch(cfg: Config, e: Endpoint): Decision {
    Planned(ApiGet(cfg, e), None)
  }

  /** The commands `main` knows, one per `case` of its `switch`. */
  datatype Cmd =
    | GetSpace | GetMyself | GetUsers | GetPriorities | GetProjects | GetProject | GetIssueTypes
    | GetCategories | GetIssues | GetIssue | CreateIssue | UpdateIssue | AddComment | GetComments
    | GetNotifications | CountNotifications

  /** The command-line name of each command. */
  function Name(c: Cmd): string {
    match c
    case GetSpace => "get-space"
    case GetMyself => "get-myself"
    case GetUsers => "get-users"
    case GetPriorities => "get-priorities"
    case GetProjects => "get-projects"
    case GetProject => "get-project"
    case GetIssueTypes => "get-issue-types"
    case GetCategories => "get-categories"
    case GetIssues => "get-issues"
    case GetIssue => "get-issue"
    case CreateIssue => "create-issue"
    case UpdateIssue => "update-issue"
    case AddComment => "add-comment"
    case GetComments => "get-comments"
    case GetNotifications => "get-notifications"
    case CountNotifications => "count-notifications"
  }

  /** The `case` label a command word matches, if any. */
  function Lookup(command: string): (r: Option<Cmd>)
    ensures r.Some? ==> Name(r.value) == command
  {
    if command == "get-space" then Some(GetSpace)
    else if command == "get-myself" then Some(GetMyself)
    else if command == "get-users" then Some(GetUsers)
    else if command == "get-priorities" then Some(GetPriorities)
    else if command == "get-projects" then Some(GetProjects)
    else if command == "get-project" then Some(GetProject)
    else if command == "get-issue-types" then Some(GetIssueTypes)
    else if command == "get-categories" then Some(GetCategories)
    else if command == "get-issues" then Some(GetIssues)
    else if command == "get-issue" then Some(GetIssue)
    else if command == "create-issue" then Some(CreateIssue)
    else if command == "update-issue" then Some(UpdateIssue)
    else if command == "add-comment" then Some(AddComment)
    else if command == "get-comments" then Some(GetComments)
    else if command == "get-notifications" then Some(GetNotifications)
    else if command == "count-notifications" then Some(CountNotifications)
    else None
  }

  /** Every command is found under its own name: the names are distinct and none is shadowed. */
  lemma LookupName(c: Cmd)
    ensures Lookup(Name(c)) == Some(c)
  {
  }

  /** The commands that go through `callApi` with the default method. */
  predicate IsGetter(c: Cmd) {
    c !in {CreateIssue, UpdateIssue, AddComment}
  }

  /** The endpoint a getter asks for, or the message for its missing argument. */
  function GetterEndpoint(c: Cmd, args: seq<string>): (r: Result<Endpoint, string>)
    requires |args| > 0 && IsGetter(c)
    ensures c in {GetProject, GetIssueTypes, GetCategories} ==>
      (r.Failure? <==> !Present(Arg(args, 1))) && (r.Failure? ==> r.error == ProjectRequired)
    ensures c in {GetIssue, GetComments} ==>
      (r.Failure? <==> !Present(Arg(args, 1))) && (r.Failure? ==> r.error == IssueRequired)
    ensures c !in {GetProject, GetIssueTypes, GetCategories, GetIssue, GetComments} ==> r.Success?
    ensures r.Success? ==> !Named(r.value.query, "apiKey")
  {
    match c
    case GetSpace => Success(Bare("space"))
    case GetMyself => Success(Bare("users/myself"))
    case GetUsers => Success(Bare("users"))
    case GetPriorities => Success(Bare("priorities"))
    case GetProjects =>
      var e := ProjectsEndpoint(if "--archived" in args then Some(true) else None);
      assert !Named(e.query, "apiKey");
      Success(e)
    case GetProject =>
      if !Present(Arg(args, 1)) then Failure(ProjectRequired) else Success(Bare("projects/" + args[1]))
    case GetIssueTypes =>
      if !Present(Arg(args, 1)) then Failure(ProjectRequired)
      else Success(Bare("projects/" + args[1] + "/issueTypes"))
    case GetCategories =>
      if !Present(Arg(args, 1)) then Failure(ProjectRequired)
      else Success(Bare("projects/" + args[1] + "/categories"))
    case GetIssues =>
      IssueParamsNoKey(IssueOptionsOf(args[1..]));
      Success(IssuesEndpoint(IssueOptionsOf(args[1..])))
    case GetIssue =>
      if !Present(Arg(args, 1)) then Failure(IssueRequired) else Success(Bare("issues/" + args[1]))
    case GetComments =>
      if !Present(Arg(args, 1)) then Failure(IssueRequired) else Success(Bare("issues/" + args[1] + "/comments"))
    case GetNotifications =>
      var e := NotificationsEndpoint(NotificationCountOf(args[1..]));
      assert !Named(e.query, "apiKey");
      Success(e)
    case CountNotifications => Success(Bare("notifications/count"))
  }

  /** The `case` of the `switch` for a known command. */
  function Perform(c: Cmd, cfg: Config, args: seq<string>, parseCreate: string -> Parse<CreateIssueParams>,
                   parseUpdate: string -> Parse<UpdateIssueParams>): (d: Decision)
    requires |args| > 0
    ensures c in {GetProject, GetIssueTypes, GetCategories} && !Present(Arg(args, 1)) ==> d == Rejected(ProjectRequired)
    ensures c in {GetIssue, GetComments, UpdateIssue, AddComment} && !Present(Arg(args, 1)) ==> d == Rejected(IssueRequired)
    ensures c == CreateIssue && !Present(Arg(args, 1)) ==> d == Rejected(JsonRequired)
    ensures c == UpdateIssue && Present(Arg(args, 1)) && !Present(Arg(args, 2)) ==> d == Rejected(JsonRequired)
    ensures c == AddComment && Present(Arg(args, 1)) && !Present(Arg(args, 2)) ==> d == Rejected(ContentRequired)
    ensures d.Rejected? || d.Planned?
    ensures d.Planned? ==> d.request.url.host == cfg.domain && KeyLast(d.request.url.query, cfg.apiKey)
    ensures d.Planned? ==> (d.payload.Some? <==> c in {CreateIssue, UpdateIssue})
  {
    match c
    case CreateIssue => PerformCreate(cfg, args, parseCreate)
    case UpdateIssue => PerformUpdate(cfg, args, parseUpdate)
    case AddComment => PerformComment(cfg, args)
    case _ => PerformGetter(c, cfg, args)
  }

  /** `case "create-issue"`: the payload is required, and a `SyntaxError` of `JSON.parse` is rewritten. */
  function PerformCreate(cfg: Config, args: seq<string>, parseCreate: string -> Parse<CreateIssueParams>): (d: Decision)
    ensures !Present(Arg(args, 1)) ==> d == Rejected(JsonRequired)
    ensures d.Rejected? || d.Planned?
    ensures d.Planned? ==> d.request.url.host == cfg.domain && KeyLast(d.request.url.query, cfg.apiKey)
    ensures d.Planned? ==> d.payload.Some?
  {
    if !Present(Arg(args, 1)) then Rejected(JsonRequired)
    else match parseCreate(args[1])
      case SyntaxError(m) => Rejected(InvalidJson(m, args[1]))
      case Unusable(m) => Rejected(m)
      case Parsed(p) => Planned(CreateIssueRequest(cfg, p), Some(args[1]))
  }

  /** `case "update-issue"`: the id is checked before the payload. */
  function PerformUpdate(cfg: Config, args: seq<string>, parseUpdate: string -> Parse<UpdateIssueParams>): (d: Decision)
    ensures !Present(Arg(args, 1)) ==> d == Rejected(IssueRequired)
    ensures Present(Arg(args, 1)) && !Present(Arg(args, 2)) ==> d == Rejected(JsonRequired)
    ensures d.Rejected? || d.Planned?
    ensures d.Planned? ==> d.request.url.host == cfg.domain && KeyLast(d.request.url.query, cfg.apiKey)
    ensures d.Planned? ==> d.payload.Some?
  {
    if !Present(Arg(args, 1)) then Rejected(IssueRequired)
    else if !Present(Arg(args, 2)) then Rejected(JsonRequired)
    else match parseUpdate(args[2])
      case SyntaxError(m) => Rejected(InvalidJson(m, args[2]))
      case Unusable(m) => Rejected(m)
      case Parsed(p) => Planned(UpdateIssueRequest(cfg, args[1], p), Some(args[2]))
  }

  /** `case "add-comment"`: the id is checked before the content. */
  function PerformComment(cfg: Config, args: seq<string>): (d: Decision)
    ensures !Present(Arg(args, 1)) ==> d == Rejected(IssueRequired)
    ensures Present(Arg(args, 1)) && !Present(Arg(args, 2)) ==> d == Rejected(ContentRequired)
    ensures d.Rejected? || d.Planned?
    ensures d.Planned? ==> d.request.url.host == cfg.domain && KeyLast(d.request.url.query, cfg.apiKey)
    ensures d.Planned? ==> d.payload.None?
  {
    if !Present(Arg(args, 1)) then Rejected(IssueRequired)
    else if !Present(Arg(args, 2)) then Rejected(ContentRequired)
    else Planned(AddCommentRequest(cfg, args[1], args[2]), None)
  }

  /** The `case` of a getter: its missing-argument error, or its `callApi` request. */
  function PerformGetter(c: Cmd, cfg: Config, args: seq<string>): (d: Decision)
    requires |args| > 0 && IsGetter(c)
    ensures c in {GetProject, GetIssueTypes, GetCategories} && !Present(Arg(args, 1)) ==> d == Rejected(ProjectRequired)
    ensures c in {GetIssue, GetComments} && !Present(Arg(args, 1)) ==> d == Rejected(IssueRequired)
    ensures d.Rejected? || d.Planned?
    ensures d.Planned? ==> d.request.url.host == cfg.domain && KeyLast(d.request.url.query, cfg.apiKey)
    ensures d.Planned? ==> d.payload.None?
  {
    match GetterEndpoint(c, args)
    case Failure(m) => Rejected(m)
    case Success(e) => Fetch(cfg, e)
  }

  /** The `switch (command)` of `main`, once the configuration is read. */
  function Command(cfg: Config, args: seq<string>, parseCreate: string -> Parse<CreateIssueParams>,
                   parseUpdate: string -> Parse<UpdateIssueParams>): (d: Decision)
    requires |args| > 0
    ensures d.Rejected? || d.Planned?
    ensures Lookup(args[0]).None? ==> d == Rejected("Unknown command: " + args[0])
    ensures d.Planned? ==> d.request.url.host == cfg.domain && KeyLast(d.request.url.query, cfg.apiKey)
    ensures d.Planned? ==> Lookup(args[0]).Some? && (d.payload.Some? <==> Lookup(args[0]).value in {CreateIssue, UpdateIssue})
  {
    match Lookup(args[0])
    case None => Rejected("Unknown command: " + args[0])
    case Some(c) => Perform(c, cfg, args, parseCreate, parseUpdate)
  }

  /**
   * `main` up to the request: a missing command is a usage error, `--help`
   * or `-h` is answered before the environment is read, and a configuration
   * error beats every check of the command, "Unknown command" included.
   */
  function Dispatch(args: seq<string>, env: Env, parseCreate: string -> Parse<CreateIssueParams>,
                    parseUpdate: string -> Parse<UpdateIssueParams>): (d: Decision)
    ensures d == UsageError <==> !Present(Arg(args, 0))
    ensures d == ShowHelp <==> Present(Arg(args, 0)) && args[0] in {"--help", "-h"}
    ensures Present(Arg(args, 0)) && args[0] !in {"--help", "-h"} && GetConfig(env.domain, env.apiKey).Failure? ==>
      d == Rejected(GetConfig(env.domain, env.apiKey).error)
    ensures d.Planned? ==> GetConfig(env.domain, env.apiKey).Success? && Lookup(args[0]).Some?
  {
    if !Present(Arg(args, 0)) then UsageError
    else if args[0] == "--help" || args[0] == "-h" then ShowHelp
    else match GetConfig(env.domain, env.apiKey)
      case Failure(m) => Rejected(m)
      case Success(cfg) => Command(cfg, args, parseCreate, parseUpdate)
  }

  /** The key is the query's one `apiKey` pair, after all the others. */
  predicate KeyLast(q: seq<Param>, key: string) {
    |q| > 0 && q[|q| - 1] == Param("apiKey", key) && Count(q, "apiKey") == 1
  }

  /** `get-issues` plans the search whose options are the flags after the command. */
  lemma DispatchIssues(cfg: Config, args: seq<string>, parseCreate: string -> Parse<CreateIssueParams>,
                       parseUpdate: string -> Parse<UpdateIssueParams>)
    requires |args| > 0 && args[0] == "get-issues"
    ensures Command(cfg, args, parseCreate, parseUpdate) == Fetch(cfg, IssuesEndpoint(IssueOptionsOf(args[1..])))
  {
    LookupName(GetIssues);
  }

  /** `get-projects` asks for `projects?archived=true` exactly when `--archived` is one of the arguments, and for `projects` otherwise. */
  lemma DispatchProjects(enc: string -> string, cfg: Config, args: seq<string>,
                         parseCreate: string -> Parse<CreateIssueParams>, parseUpdate: string -> Parse<UpdateIssueParams>)
    requires |args| > 0 && args[0] == "get-projects" && FixesUnreserved(enc)
    ensures var e := ProjectsEndpoint(if "--archived" in args then Some(true) else None);
      Command(cfg, args, parseCreate, parseUpdate) == Planned(ApiGet(cfg, e), None) &&
      ("--archived" in args ==> Render(enc, e) == "projects" + "?" + "archived" + "=" + "true") &&
      ("--archived" !in args ==> Render(enc, e) == "projects")
  {
    LookupName(GetProjects);
    ProjectsEndpointText(enc, if "--archived" in args then Some(true) else None);
  }

  /** `get-notifications` always sends a count: 20 unless a `--count=` flag gives another. */
  lemma DispatchNotifications(cfg: Config, args: seq<string>, parseCreate: string -> Parse<CreateIssueParams>,
                              parseUpdate: string -> Parse<UpdateIssueParams>)
    requires |args| > 0 && args[0] == "get-notifications"
    ensures Command(cfg, args, parseCreate, parseUpdate) == Fetch(cfg, NotificationsEndpoint(NotificationCountOf(args[1..])))
  {
    LookupName(GetNotifications);
  }

  /** A getter's command word plans that getter's `callApi` request, or rejects with its missing-argument message. */
  lemma DispatchGetter(c: Cmd, cfg: Config, args: seq<string>, parseCreate: string -> Parse<CreateIssueParams>,
                       parseUpdate: string -> Parse<UpdateIssueParams>)
    requires |args| > 0 && args[0] == Name(c) && IsGetter(c)
    ensures GetterEndpoint(c, args).Failure? ==>
      Command(cfg, args, parseCreate, parseUpdate) == Rejected(GetterEndpoint(c, args).error)
    ensures GetterEndpoint(c, args).Success? ==>
      Command(cfg, args, parseCreate, parseUpdate) == Fetch(cfg, GetterEndpoint(c, args).value)
  {
    LookupName(c);
  }

  /** The getters without arguments ask for fixed paths. */
  lemma GetterFixedPaths(args: seq<string>)
    requires |args| > 0
    ensures GetterEndpoint(GetSpace, args) == Success(Bare("space"))
    ensures GetterEndpoint(GetMyself, args) == Success(Bare("users/myself"))
    ensures GetterEndpoint(GetUsers, args) == Success(Bare("users"))
    ensures GetterEndpoint(GetPriorities, args) == Success(Bare("priorities"))
    ensures GetterEndpoint(CountNotifications, args) == Success(Bare("notifications/count"))
  {
  }

  /** The getters that take an id or key put it into their path. */
  lemma GetterIdPaths(args: seq<string>)
    requires |args| > 0
    ensures Present(Arg(args, 1)) ==> GetterEndpoint(GetProject, args) == Success(Bare("projects/" + args[1]))
    ensures Present(Arg(args, 1)) ==>
      GetterEndpoint(GetIssueTypes, args) == Success(Bare("projects/" + args[1] + "/issueTypes"))
    ensures Present(Arg(args, 1)) ==>
      GetterEndpoint(GetCategories, args) == Success(Bare("projects/" + args[1] + "/categories"))
    ensures Present(Arg(args, 1)) ==> GetterEndpoint(GetIssue, args) == Success(Bare("issues/" + args[1]))
    ensures Present(Arg(args, 1)) ==>
      GetterEndpoint(GetComments, args) == Success(Bare("issues/" + args[1] + "/comments"))
  {
  }

  /**
   * `create-issue`: a payload that fails to parse is reported as invalid JSON
   * with the raw text and plans nothing; one that parses plans the form post.
   */
  lemma DispatchCreate(cfg: Config, args: seq<string>, parseCreate: string -> Parse<CreateIssueParams>,
                       parseUpdate: string -> Parse<UpdateIssueParams>)
    requires |args| > 1 && args[0] == "create-issue" && args[1] != ""
    ensures parseCreate(args[1]).SyntaxError? ==>
      Command(cfg, args, parseCreate, parseUpdate) == Rejected(InvalidJson(parseCreate(args[1]).message, args[1]))
    ensures parseCreate(args[1]).Parsed? ==>
      Command(cfg, args, parseCreate, parseUpdate) ==
      Planned(CreateIssueRequest(cfg, parseCreate(args[1]).value), Some(args[1]))
  {
    LookupName(CreateIssue);
  }

  /** `update-issue`: the same for the payload in the third argument, with the id in the path. */
  lemma DispatchUpdate(cfg: Config, args: seq<string>, parseCreate: string -> Parse<CreateIssueParams>,
                       parseUpdate: string -> Parse<UpdateIssueParams>)
    requires |args| > 2 && args[0] == "update-issue" && args[1] != "" && args[2] != ""
    ensures parseUpdate(args[2]).SyntaxError? ==>
      Command(cfg, args, parseCreate, parseUpdate) == Rejected(InvalidJson(parseUpdate(args[2]).message, args[2]))
    ensures parseUpdate(args[2]).Parsed? ==>
      Command(cfg, args, parseCreate, parseUpdate) ==
      Planned(UpdateIssueRequest(cfg, args[1], parseUpdate(args[2]).value), Some(args[2]))
  {
    LookupName(UpdateIssue);
  }

  /** `add-comment` posts the third argument, as it is, to the comments of the issue. */
  lemma DispatchComment(cfg: Config, args: seq<string>, parseCreate: string -> Parse<CreateIssueParams>,
                        parseUpdate: string -> Parse<UpdateIssueParams>)
    requires |args| > 2 && args[0] == "add-comment" && args[1] != "" && args[2] != ""
    ensures Command(cfg, args, parseCreate, parseUpdate) == Planned(AddCommentRequest(cfg, args[1], args[2]), None)
  {
    LookupName(AddComment);
  }

  /** Without a `--count=` flag after the command the count is 20. */
  lemma NotificationCountDefault(args: seq<string>)
    requires |args| > 0
    ensures (forall i :: 1 <= i < |args| ==> !StartsWith(args[i], CountFlag)) ==> NotificationCountOf(args[1..]) == Int(20)
  {
    var rest := args[1..];
    assert forall i :: 0 <= i < |rest| ==> rest[i] == args[i + 1];
  }

  /** The default count is sent as `20`. */
  lemma DefaultCountText()
    ensures NumText(Int(20)) == "20"
  {
    assert NatText(2) == [DigitChar(2)];
    assert NatText(20) == NatText(2) + [DigitChar(0)];
  }

  // ---------------------------------------------------------------------------
  // Output

  /** What `main` prints: the two usage lines, the help text, one `Error:` line, or the result. */
  datatype Report = Usage | Help | ErrorLine(message: string) | Printed(result: string)

  const UsageLines: seq<string> :=
    ["Usage: bun run backlog.ts <command> [args...]", "Run with --help for available commands"]

  /** `process.exit(1)` after the usage lines and after any error; the normal end of `main` otherwise. */
  function ExitCode(r: Report): (code: nat)
    ensures code == 0 <==> r.Help? || r.Printed?
  {
    if r.Help? || r.Printed? then 0 else 1
  }

  /** `console.error` output: the usage lines, or `Error: ` and the message. */
  function Stderr(r: Report): (lines: seq<string>)
    ensures ExitCode(r) == 1 <==> lines != []
  {
    match r
    case Usage => UsageLines
    case ErrorLine(m) => ["Error: " + m]
    case _ => []
  }

  /** How the settled request is reported when nothing rewrites its errors. */
  function Reported(s: Settled): Report {
    match s
    case Fulfilled(v) => Printed(v)
    case Thrown(_, m) => ErrorLine(m)
  }

  /**
   * The run, given what `fetch` answers. Only a failure of `JSON.parse` on the
   * payload argument is reported as invalid JSON; an error of the request
   * itself is reported with its own message.
   */
  function Run(args: seq<string>, env: Env, parseCreate: string -> Parse<CreateIssueParams>,
               parseUpdate: string -> Parse<UpdateIssueParams>, reply: Reply): (r: Report)
    ensures r == Usage <==> !Present(Arg(args, 0))
    ensures r == Help <==> Present(Arg(args, 0)) && args[0] in {"--help", "-h"}
    ensures Dispatch(args, env, parseCreate, parseUpdate).Rejected? ==>
      r == ErrorLine(Dispatch(args, env, parseCreate, parseUpdate).message)
    ensures Dispatch(args, env, parseCreate, parseUpdate).Planned? ==>
      r == Reported(Complete(Dispatch(args, env, parseCreate, parseUpdate).request, reply))
  {
    match Dispatch(args, env, parseCreate, parseUpdate)
    case UsageError => Usage
    case ShowHelp => Help
    case Rejected(m) => ErrorLine(m)
    case Planned(req, _) => Reported(Complete(req, reply))
  }

  /**
   * The run as the source writes it: the `catch` around `create-issue` and
   * `update-issue` also rewrites a `SyntaxError` thrown while the request is
   * completed, which is what `response.json()` throws for a 2xx reply whose
   * body is not JSON.
   */
  function RunAsWritten(args: seq<string>, env: Env, parseCreate: string -> Parse<CreateIssueParams>,
                        parseUpdate: string -> Parse<UpdateIssueParams>, reply: Reply): (r: Report)
    ensures !Dispatch(args, env, parseCreate, parseUpdate).Planned? ==> r == Run(args, env, parseCreate, parseUpdate, reply)
    ensures (Dispatch(args, env, parseCreate, parseUpdate).Planned? &&
             Dispatch(args, env, parseCreate, parseUpdate).payload.None?) ==> r == Run(args, env, parseCreate, parseUpdate, reply)
    ensures var d := Dispatch(args, env, parseCreate, parseUpdate);
      d.Planned? && d.payload.Some? && Complete(d.request, reply).Thrown? && Complete(d.request, reply).syntaxError ==>
      r == ErrorLine(InvalidJson(Complete(d.request, reply).message, d.payload.value))
    ensures var d := Dispatch(args, env, parseCreate, parseUpdate);
      d.Planned? && !(Complete(d.request, reply).Thrown? && Complete(d.request, reply).syntaxError) ==>
      r == Run(args, env, parseCreate, parseUpdate, reply)
  {
    match Dispatch(args, env, parseCreate, parseUpdate)
    case UsageError => Usage
    case ShowHelp => Help
    case Rejected(m) => ErrorLine(m)
    case Planned(req, payload) =>
      match Complete(req, reply)
      case Thrown(true, m) => ErrorLine(if payload.Some? then InvalidJson(m, payload.value) else m)
      case s => Reported(s)
  }

  /** A complete create payload; `JSON.parse` gives the four required fields, none of them falsy. */
  const Payload := "{\"projectId\":1,\"summary\":\"s\",\"issueTypeId\":2,\"priorityId\":3}"

  /**
   * A `create-issue` whose payload parses, answered with a 2xx reply whose
   * body is not JSON: the source reports the payload as invalid JSON,
   * although it was parsed and the issue was created; the corrected run
   * reports the reply's own error.
   */
  lemma AsWrittenBlamesParsedPayload(args: seq<string>, env: Env, parseCreate: string -> Parse<CreateIssueParams>,
                                     parseUpdate: string -> Parse<UpdateIssueParams>, reply: Reply)
    requires |args| > 1 && args[0] == "create-issue" && args[1] != "" && GetConfig(env.domain, env.apiKey).Success?
    requires parseCreate(args[1]).Parsed?
    requires reply.Answered? && Ok(reply.status) && reply.json.Failure?
    ensures RunAsWritten(args, env, parseCreate, parseUpdate, reply) == ErrorLine(InvalidJson(reply.json.error, args[1]))
    ensures Run(args, env, parseCreate, parseUpdate, reply) == ErrorLine(reply.json.error)
  {
    LookupName(CreateIssue);
    var req := CreateIssueRequest(GetConfig(env.domain, env.apiKey).value, parseCreate(args[1]).value);
    assert Dispatch(args, env, parseCreate, parseUpdate) == Planned(req, Some(args[1]));
  }

  /** The same for an `update-issue` whose payload parses. */
  lemma AsWrittenBlamesParsedUpdate(args: seq<string>, env: Env, parseCreate: string -> Parse<CreateIssueParams>,
                                    parseUpdate: string -> Parse<UpdateIssueParams>, reply: Reply)
    requires |args| > 2 && args[0] == "update-issue" && args[1] != "" && args[2] != ""
    requires GetConfig(env.domain, env.apiKey).Success? && parseUpdate(args[2]).Parsed?
    requires reply.Answered? && Ok(reply.status) && reply.json.Failure?
    ensures RunAsWritten(args, env, parseCreate, parseUpdate, reply) == ErrorLine(InvalidJson(reply.json.error, args[2]))
    ensures Run(args, env, parseCreate, parseUpdate, reply) == ErrorLine(reply.json.error)
  {
    LookupName(UpdateIssue);
    var req := UpdateIssueRequest(GetConfig(env.domain, env.apiKey).value, args[1], parseUpdate(args[2]).value);
    assert Dispatch(args, env, parseCreate, parseUpdate) == Planned(req, Some(args[2]));
  }

  /** The same on one concrete run: `create-issue` with a complete payload, answered 201 with an HTML body. */
  lemma AsWrittenBlamesPayload()
    ensures var args := ["create-issue", Payload];
      var env := Env(Some("example.backlog.com"), Some("key"));
      var parsed := CreateIssueParams(Int(1), "s", Int(2), Int(3), None, None, None, None);
      var create := (s: string) => if s == Payload then Parsed(parsed) else SyntaxError("Unexpected end");
      var update := (s: string) => SyntaxError("unused");
      var reply := Answered(201, "<html>", Failure("Unexpected token"));
      create(args[1]).Parsed? &&
      RunAsWritten(args, env, create, update, reply) == ErrorLine(InvalidJson("Unexpected token", Payload)) &&
      Run(args, env, create, update, reply) == ErrorLine("Unexpected token")
  {
    var args := ["create-issue", Payload];
    var env := Env(Some("example.backlog.com"), Some("key"));
    var parsed := CreateIssueParams(Int(1), "s", Int(2), Int(3), None, None, None, None);
    var create := (s: string) => if s == Payload then Parsed(parsed) else SyntaxError("Unexpected end");
    var update := (s: string) => SyntaxError("unused");
    var reply := Answered(201, "<html>", Failure("Unexpected token"));
    assert GetConfig(env.domain, env.apiKey).Success?;
    AsWrittenBlamesParsedPayload(args, env, create, update, reply);
  }

  /**
   * `create-issue` reports invalid JSON exactly for a payload that fails to
   * parse; once the payload parses, the reply alone decides the report.
   */
  lemma CreateIssueReports(args: seq<string>, env: Env, parseCreate: string -> Parse<CreateIssueParams>,
                           parseUpdate: string -> Parse<UpdateIssueParams>, reply: Reply)
    requires |args| > 1 && args[0] == "create-issue" && args[1] != "" && GetConfig(env.domain, env.apiKey).Success?
    ensures parseCreate(args[1]).SyntaxError? ==>
      Run(args, env, parseCreate, parseUpdate, reply) == ErrorLine(InvalidJson(parseCreate(args[1]).message, args[1]))
    ensures parseCreate(args[1]).Parsed? ==>
      Run(args, env, parseCreate, parseUpdate, reply) ==
      Reported(Complete(CreateIssueRequest(GetConfig(env.domain, env.apiKey).value, parseCreate(args[1]).value), reply))
  {
    LookupName(CreateIssue);
    var cfg := GetConfig(env.domain, env.apiKey).value;
    assert Dispatch(args, env, parseCreate, parseUpdate) == Perform(CreateIssue, cfg, args, parseCreate, parseUpdate);
  }
}
