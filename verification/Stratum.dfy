/** Stratum messages: the request reader, the job record, and the lines the proxy itself prints. */
module Stratum {
  import opened Wrappers
  import opened Json

  datatype Method =
    | Subscribe | Authorize | Submit | Notify | SetDifficulty
    | Login | JobNotice | MoneroSubmit
    | Unknown

  datatype Request = Request(id: int, verb: Method, params: Value)

  datatype Job = Job(jobId: string, blob: string, target: string, difficulty: string,
                     height: int, cleanJobs: bool)

  // ----- Conversions of JSON values; None is a thrown type error --------------------------------

  function AsString(v: Value): Option<string> {
    if v.Str? then Some(v.s) else None
  }

  /** Conversion to a 32-bit `int`: integers wrap, booleans count as 0 and 1. */
  function AsInt(v: Value): (r: Option<int>)
    ensures r.Some? ==> -0x8000_0000 <= r.value < 0x8000_0000
  {
    match v
    case Num(n) => Some((n + 0x8000_0000) % 0x1_0000_0000 - 0x8000_0000)
    case Bool(b) => Some(if b then 1 else 0)
    case _ => None
  }

  /** A number that fits is itself, any other is the one 32-bit number that differs by a multiple of 2^32. */
  lemma AsIntWraps(n: int)
    ensures var r := AsInt(Num(n));
      && r.Some? && -0x8000_0000 <= r.value < 0x8000_0000 && (n - r.value) % 0x1_0000_0000 == 0
      && (-0x8000_0000 <= n < 0x8000_0000 ==> r.value == n)
    ensures AsInt(Bool(true)) == Some(1) && AsInt(Bool(false)) == Some(0)
    ensures forall s :: AsInt(Str(s)) == None
    ensures AsInt(Null) == None
  {
  }

  /** Conversion to a 64-bit unsigned integer. */
  function AsUint64(v: Value): (r: Option<int>)
    ensures r.Some? ==> 0 <= r.value < 0x1_0000_0000_0000_0000
  {
    if v.Num? then Some(v.n % 0x1_0000_0000_0000_0000) else None
  }

  lemma AsUint64Wraps(n: int)
    ensures var r := AsUint64(Num(n));
      && r.Some? && 0 <= r.value < 0x1_0000_0000_0000_0000 && (n - r.value) % 0x1_0000_0000_0000_0000 == 0
      && (0 <= n < 0x1_0000_0000_0000_0000 ==> r.value == n)
  {
  }

  function AsBool(v: Value): Option<bool> {
    if v.Bool? then Some(v.b) else None
  }

  // ----- Readers --------------------------------------------------------------------------------

  function MethodNamed(name: string): Method {
    match name
    case "mining.subscribe" => Subscribe
    case "mining.authorize" => Authorize
    case "mining.submit" => Submit
    case "mining.notify" => Notify
    case "mining.set_difficulty" => SetDifficulty
    case "login" => Login
    case "job" => JobNotice
    case "submit" => MoneroSubmit
    case _ => Unknown
  }

  /** A line that does not parse, or whose id or method has the wrong type, is an unknown request
      with the id read so far. */
  function ParseRequest(line: string): Request {
    match Parse(line)
    case None => Request(0, Unknown, Null)
    case Some(j) => RequestOf(j)
  }

  function RequestOf(j: Value): Request {
    var id := if j.Has("id") then AsInt(j.fields["id"]) else Some(0);
    if id.None? then Request(0, Unknown, Null)
    else
      var verb :=
        if j.Has("method") then
          match AsString(j.fields["method"])
          case None => None
          case Some(name) => Some(MethodNamed(name))
        else Some(Unknown);
      if verb.None? then Request(id.value, Unknown, Null)
      else Request(id.value, verb.value, if j.Has("params") then j.fields["params"] else Null)
  }

  /** What a request is when it has no method, and when its id or its method has the wrong type. */
  lemma OddRequests(j: Value)
    ensures !j.Has("method") ==> RequestOf(j).verb == Unknown
    ensures j.Has("method") && !j.fields["method"].Str? ==> RequestOf(j).verb == Unknown
    ensures j.Has("id") && !j.fields["id"].Num? && !j.fields["id"].Bool? ==> RequestOf(j) == Request(0, Unknown, Null)
    ensures !j.Has("id") ==> RequestOf(j).id == 0
  {
  }

  /** None when a field has the wrong type. */
  function JobFromNotify(params: Value): Option<Job> {
    if !params.Arr? || |params.items| < 4 then Some(Job("", "", "", "", 0, false))
    else
      var p := params.items;
      match (AsString(p[0]), AsString(p[1]), AsString(p[2]), AsString(p[3]),
             if |p| >= 5 then AsUint64(p[4]) else Some(0),
             if |p| >= 6 then AsBool(p[5]) else Some(false))
      case (Some(jobId), Some(blob), Some(target), Some(difficulty), Some(height), Some(clean)) =>
        Some(Job(jobId, blob, target, difficulty, height, clean))
      case _ => None
  }

  // ----- Lines the proxy prints -----------------------------------------------------------------

  datatype Msg =
    | LoginMsg(wallet: string, password: string, id: int)
    | SubmitMsg(id: int, worker: string, jobId: string, nonce: string, result: string)
    | JobMsg(job: Job)
    | LoginReply(id: int, fd: int, jobGiven: Option<Job>)
    | AuthorizeReply(id: int, allowed: bool)
    | SubmitAck(id: int)
    | SubscribeReply(id: int, fd: int)

  /** The layout of each message: the members in printing order, each with the blanks before its
      name and before its value. Text fields are printed between quotation marks as they are,
      without escaping. The subscribe reply has no such layout. */
  function Layout(m: Msg): Doc
    requires !m.SubscribeReply?
  {
    match m
    case LoginMsg(wallet, password, id) =>
      DObj([Member("", "method", "", DStr("login")),
            Member("", "params", "", LoginParams(wallet, password)),
            Member("", "id", "", DNum(id))])
    case SubmitMsg(id, worker, jobId, nonce, result) =>
      DObj([Member("", "id", " ", DNum(id)),
            Member(" ", "method", " ", DStr("submit")),
            Member(" ", "params", " ", SubmitParams(worker, jobId, nonce, result)),
            Member(" ", "jsonrpc", " ", DStr("2.0"))])
    case JobMsg(job) =>
      DObj([Member("", "jsonrpc", "", DStr("2.0")),
            Member(" ", "method", " ", DStr("job")),
            Member(" ", "params", " ", JobParams(job))])
    case LoginReply(id, fd, jobGiven) =>
      DObj([Member("", "id", " ", DNum(id)),
            Member(" ", "jsonrpc", " ", DStr("2.0")),
            Member(" ", "result", " ", LoginResult(fd, jobGiven)),
            Member(" ", "error", " ", DNull)])
    case AuthorizeReply(id, allowed) =>
      DObj([Member("", "id", " ", DNum(id)),
            Member(" ", "result", " ", DBool(allowed)),
            Member(" ", "error", " ", DNull)])
    case SubmitAck(id) =>
      DObj([Member("", "id", " ", DNum(id)),
            Member(" ", "jsonrpc", " ", DStr("2.0")),
            Member(" ", "result", " ", DBool(true))])
  }

  function LoginParams(wallet: string, password: string): Doc {
    DObj([Member("", "login", "", DStr(wallet)),
          Member("", "pass", "", DStr(password)),
          Member("", "agent", "", DStr("gpu-proxy/2.0"))])
  }

  function SubmitParams(worker: string, jobId: string, nonce: string, result: string): Doc {
    DObj([Member("", "id", " ", DStr(worker)),
          Member(" ", "job_id", " ", DStr(jobId)),
          Member(" ", "nonce", " ", DStr(nonce)),
          Member(" ", "result", " ", DStr(result))])
  }

  function JobParams(job: Job): Doc {
    DObj([Member("", "algo", " ", DStr("cuckaroo")),
          Member(" ", "blob", " ", DStr(job.blob)),
          Member(" ", "job_id", " ", DStr(job.jobId)),
          Member(" ", "target", " ", DStr(job.target)),
          Member(" ", "height", " ", DNum(job.height))])
  }

  /** The job inside a login reply is printed without blanks. */
  function GivenJob(job: Job): Doc {
    DObj([Member("", "algo", "", DStr("cuckaroo")),
          Member("", "blob", "", DStr(job.blob)),
          Member("", "job_id", "", DStr(job.jobId)),
          Member("", "target", "", DStr(job.target)),
          Member("", "height", "", DNum(job.height))])
  }

  function LoginResult(fd: int, jobGiven: Option<Job>): Doc {
    match jobGiven
    case None =>
      DObj([Member("", "id", " ", DStr(ToString(fd))),
            Member(" ", "status", " ", DStr("OK"))])
    case Some(job) =>
      DObj([Member("", "id", " ", DStr(ToString(fd))),
            Member(" ", "job", " ", GivenJob(job)),
            Member(" ", "status", " ", DStr("OK"))])
  }

  function Text(m: Msg): string
    requires !m.SubscribeReply?
  {
    Print(Layout(m))
  }

  /** The fields that a job message prints need no escape, and the height is a 64-bit number. */
  predicate CleanJob(job: Job) {
    Clean(job.jobId) && Clean(job.blob) && Clean(job.target) && 0 <= job.height < 0x1_0000_0000_0000_0000
  }

  predicate Int32(n: int) {
    -0x8000_0000 <= n < 0x8000_0000
  }

  /** The text fields need no escape, and the numbers have the width of their C++ types. */
  predicate CleanMsg(m: Msg) {
    match m
    case LoginMsg(wallet, password, id) => Clean(wallet) && Clean(password) && Int32(id)
    case SubmitMsg(id, worker, jobId, nonce, result) =>
      Int32(id) && Clean(worker) && Clean(jobId) && Clean(nonce) && Clean(result)
    case JobMsg(job) => CleanJob(job)
    case LoginReply(id, fd, jobGiven) =>
      Int32(id) && Int32(fd) && (jobGiven.Some? ==> CleanJob(jobGiven.value))
    case AuthorizeReply(id, _) => Int32(id)
    case SubmitAck(id) => Int32(id)
    case SubscribeReply(_, _) => false
  }

  lemma CleanMsgIsPrintable(m: Msg)
    requires CleanMsg(m)
    ensures Printable(Layout(m))
  {
    NamesAreClean();
    ConstantsAreClean();
    if m.LoginMsg? || m.SubmitMsg? || m.JobMsg? {
      RequestIsPrintable(m);
    } else if m.LoginReply? {
      ReplyIsPrintable(m);
    } else {
      forall k | k in Layout(m).members ensures PrintableMember(k) {}
    }
  }

  lemma RequestIsPrintable(m: Msg)
    requires CleanMsg(m) && CleanNames() && CleanConstants()
    requires m.LoginMsg? || m.SubmitMsg? || m.JobMsg?
    ensures Printable(Layout(m))
  {
    match m
    case LoginMsg(wallet, password, _) => LoginParamsArePrintable(wallet, password);
    case SubmitMsg(_, worker, jobId, nonce, result) => SubmitParamsArePrintable(worker, jobId, nonce, result);
    case JobMsg(job) => JobParamsArePrintable(job);
    forall k | k in Layout(m).members ensures PrintableMember(k) {}
  }

  lemma LoginParamsArePrintable(wallet: string, password: string)
    requires Clean(wallet) && Clean(password) && CleanNames() && CleanConstants()
    ensures Printable(LoginParams(wallet, password))
  {
    forall k | k in LoginParams(wallet, password).members ensures PrintableMember(k) {}
  }

  lemma SubmitParamsArePrintable(worker: string, jobId: string, nonce: string, result: string)
    requires Clean(worker) && Clean(jobId) && Clean(nonce) && Clean(result) && CleanNames() && CleanConstants()
    ensures Printable(SubmitParams(worker, jobId, nonce, result))
  {
    forall k | k in SubmitParams(worker, jobId, nonce, result).members ensures PrintableMember(k) {}
  }

  lemma JobParamsArePrintable(job: Job)
    requires CleanJob(job) && CleanNames() && CleanConstants()
    ensures Printable(JobParams(job)) && Printable(GivenJob(job))
  {
    forall k | k in JobParams(job).members ensures PrintableMember(k) {}
    forall k | k in GivenJob(job).members ensures PrintableMember(k) {}
  }

  lemma ReplyIsPrintable(m: Msg)
    requires CleanMsg(m) && CleanNames() && CleanConstants() && m.LoginReply?
    ensures Printable(Layout(m))
  {
    ResultIsPrintable(m.fd, m.jobGiven);
    forall k | k in Layout(m).members ensures PrintableMember(k) {}
  }

  lemma ResultIsPrintable(fd: int, jobGiven: Option<Job>)
    requires (jobGiven.Some? ==> CleanJob(jobGiven.value)) && CleanNames() && CleanConstants()
    ensures Printable(LoginResult(fd, jobGiven))
  {
    NumberIsClean(fd);
    if jobGiven.Some? {
      JobParamsArePrintable(jobGiven.value);
    }
    forall k | k in LoginResult(fd, jobGiven).members ensures PrintableMember(k) {}
  }

  predicate CleanNames() {
    && Clean("method") && Clean("params") && Clean("id") && Clean("jsonrpc") && Clean("result")
    && Clean("error") && Clean("login") && Clean("pass") && Clean("agent") && Clean("job")
    && Clean("job_id") && Clean("nonce") && Clean("algo") && Clean("blob") && Clean("target")
    && Clean("height") && Clean("status")
  }

  predicate CleanConstants() {
    && Clean("gpu-proxy/2.0") && Clean("2.0") && Clean("cuckaroo") && Clean("OK")
    && Clean("submit") && Blank("") && Blank(" ")
  }

  lemma NamesAreClean()
    ensures CleanNames()
  {
  }

  lemma ConstantsAreClean()
    ensures CleanConstants()
  {
  }

  lemma NumberIsClean(n: int)
    ensures Clean(ToString(n))
  {
  }

  /** The line of a clean message is one line for the framing layer, and reads back as its layout. */
  lemma CleanMsgReads(m: Msg)
    requires CleanMsg(m)
    ensures Parse(Text(m)) == Some(ValueOf(Layout(m)))
    ensures NoControl(Text(m)) && Text(m) != ""
  {
    CleanMsgIsPrintable(m);
    PrintedDocParses(Layout(m));
    PrintedDocIsOneLine(Layout(m));
  }

  // ----- What the proxy's readers find in the proxy's lines -------------------------------------

  predicate CarriesJob(v: Value, job: Job) {
    && v.Has("job_id") && v.fields["job_id"] == Str(job.jobId)
    && v.Has("blob") && v.fields["blob"] == Str(job.blob)
    && v.Has("target") && v.fields["target"] == Str(job.target)
    && v.Has("height") && v.fields["height"] == Num(job.height)
  }

  /** The value of the i-th member of a printed object. */
  lemma MemberAt(ms: seq<Member>, i: nat)
    requires i < |ms|
    requires forall j :: i < j < |ms| ==> ms[j].key != ms[i].key
    ensures ValueOf(DObj(ms)).Has(ms[i].key)
    ensures ValueOf(DObj(ms)).fields[ms[i].key] == ValueOf(ms[i].value)
  {
    FieldAt(ms, map[], i);
  }

  lemma NoMember(ms: seq<Member>, key: string)
    requires forall m :: m in ms ==> m.key != key
    ensures !ValueOf(DObj(ms)).Has(key)
  {
    FieldKept(ms, map[], key);
  }

  lemma RequestRead(v: Value, id: int, name: string)
    requires v.Has("method") && v.fields["method"] == Str(name) && v.Has("params")
    requires if v.Has("id") then v.fields["id"] == Num(id) && Int32(id) else id == 0
    ensures RequestOf(v) == Request(id, MethodNamed(name), v.fields["params"])
  {
  }

  lemma JobParamsRead(job: Job)
    ensures CarriesJob(ValueOf(JobParams(job)), job)
    ensures CarriesJob(ValueOf(GivenJob(job)), job)
  {
    JobMembersRead(JobParams(job).members, job);
    JobMembersRead(GivenJob(job).members, job);
  }

  lemma JobMembersRead(ps: seq<Member>, job: Job)
    requires |ps| == 5
    requires ps[1].key == "blob" && ps[1].value == DStr(job.blob)
    requires ps[2].key == "job_id" && ps[2].value == DStr(job.jobId)
    requires ps[3].key == "target" && ps[3].value == DStr(job.target)
    requires ps[4].key == "height" && ps[4].value == DNum(job.height)
    ensures CarriesJob(ValueOf(DObj(ps)), job)
  {
    MemberAt(ps, 1);
    MemberAt(ps, 2);
    MemberAt(ps, 3);
    MemberAt(ps, 4);
  }

  lemma RequestLineReads(m: Msg)
    requires CleanMsg(m)
    ensures ParseRequest(Text(m)) == RequestOf(ValueOf(Layout(m)))
  {
    CleanMsgReads(m);
  }

  lemma JobLayoutReads(job: Job)
    ensures var r := RequestOf(ValueOf(Layout(JobMsg(job))));
      r.id == 0 && r.verb == JobNotice && CarriesJob(r.params, job)
  {
    NoticeReads(Layout(JobMsg(job)).members, "job");
    JobParamsRead(job);
    MethodNames();
  }

  lemma MethodNames()
    ensures MethodNamed("job") == JobNotice && MethodNamed("login") == Login && MethodNamed("submit") == MoneroSubmit
  {
  }

  /** A request without an id. */
  lemma NoticeReads(ms: seq<Member>, name: string)
    requires |ms| == 3 && ms[0].key == "jsonrpc"
    requires ms[1].key == "method" && ms[1].value == DStr(name) && ms[2].key == "params"
    ensures RequestOf(ValueOf(DObj(ms))) == Request(0, MethodNamed(name), ValueOf(ms[2].value))
  {
    NoMember(ms, "id");
    MemberAt(ms, 1);
    MemberAt(ms, 2);
    RequestRead(ValueOf(DObj(ms)), 0, name);
  }

  /** A request whose id, method and params are at the given places. */
  lemma RequestReads(ms: seq<Member>, i: nat, m: nat, p: nat, id: int, name: string)
    requires i < |ms| && m < |ms| && p < |ms|
    requires forall j, k :: 0 <= j < k < |ms| ==> ms[j].key != ms[k].key
    requires ms[i].key == "id" && ms[i].value == DNum(id) && Int32(id)
    requires ms[m].key == "method" && ms[m].value == DStr(name) && ms[p].key == "params"
    ensures RequestOf(ValueOf(DObj(ms))) == Request(id, MethodNamed(name), ValueOf(ms[p].value))
  {
    MemberAt(ms, i);
    MemberAt(ms, m);
    MemberAt(ms, p);
    RequestRead(ValueOf(DObj(ms)), id, name);
  }

  /** A job notice printed for a worker reads as a `job` request that carries the same job. */
  lemma JobLineReads(job: Job)
    requires CleanJob(job)
    ensures var r := ParseRequest(Text(JobMsg(job)));
      r.id == 0 && r.verb == JobNotice && CarriesJob(r.params, job)
  {
    RequestLineReads(JobMsg(job));
    JobLayoutReads(job);
  }

  predicate CarriesLogin(v: Value, wallet: string) {
    v.Has("login") && v.fields["login"] == Str(wallet)
  }

  lemma LoginParamsRead(wallet: string, password: string)
    ensures var v := ValueOf(LoginParams(wallet, password));
      CarriesLogin(v, wallet) && v.Has("pass") && v.fields["pass"] == Str(password)
  {
    MemberAt(LoginParams(wallet, password).members, 0);
    MemberAt(LoginParams(wallet, password).members, 1);
  }

  /** A login printed for the pool reads as a `login` request with the same wallet, password and id. */
  lemma LoginLineReads(wallet: string, password: string, id: int)
    requires Clean(wallet) && Clean(password) && Int32(id)
    ensures var r := ParseRequest(Text(LoginMsg(wallet, password, id)));
      && r.id == id && r.verb == Login && CarriesLogin(r.params, wallet)
      && r.params.Has("pass") && r.params.fields["pass"] == Str(password)
  {
    RequestLineReads(LoginMsg(wallet, password, id));
    RequestReads(Layout(LoginMsg(wallet, password, id)).members, 2, 0, 1, id, "login");
    LoginParamsRead(wallet, password);
    MethodNames();
  }

  predicate CarriesShare(v: Value, worker: string, jobId: string, nonce: string, result: string) {
    && v.Has("id") && v.fields["id"] == Str(worker)
    && v.Has("job_id") && v.fields["job_id"] == Str(jobId)
    && v.Has("nonce") && v.fields["nonce"] == Str(nonce)
    && v.Has("result") && v.fields["result"] == Str(result)
  }

  lemma SubmitParamsRead(worker: string, jobId: string, nonce: string, result: string)
    ensures CarriesShare(ValueOf(SubmitParams(worker, jobId, nonce, result)), worker, jobId, nonce, result)
  {
    var ps := SubmitParams(worker, jobId, nonce, result).members;
    MemberAt(ps, 0);
    MemberAt(ps, 1);
    MemberAt(ps, 2);
    MemberAt(ps, 3);
  }

  /** A share printed for the pool reads as a `submit` request with the same id and fields. */
  lemma SubmitLineReads(id: int, worker: string, jobId: string, nonce: string, result: string)
    requires CleanMsg(SubmitMsg(id, worker, jobId, nonce, result))
    ensures var r := ParseRequest(Text(SubmitMsg(id, worker, jobId, nonce, result)));
      r.id == id && r.verb == MoneroSubmit && CarriesShare(r.params, worker, jobId, nonce, result)
  {
    var m := SubmitMsg(id, worker, jobId, nonce, result);
    RequestLineReads(m);
    RequestReads(Layout(m).members, 0, 1, 2, id, "submit");
    SubmitParamsRead(worker, jobId, nonce, result);
    MethodNames();
  }

  /** The result of a login reply says OK and carries exactly the job it was given. */
  predicate CarriesReply(result: Value, jobGiven: Option<Job>) {
    && result.Has("status") && result.fields["status"] == Str("OK")
    && (result.Has("job") <==> jobGiven.Some?)
    && (jobGiven.Some? ==> CarriesJob(result.fields["job"], jobGiven.value))
  }

  lemma LoginResultReads(fd: int, jobGiven: Option<Job>)
    ensures CarriesReply(ValueOf(LoginResult(fd, jobGiven)), jobGiven)
  {
    var rs := LoginResult(fd, jobGiven).members;
    MemberAt(rs, |rs| - 1);
    if jobGiven.Some? {
      MemberAt(rs, 1);
      JobParamsRead(jobGiven.value);
    } else {
      NoMember(rs, "job");
    }
  }

  /** What the pool side looks at in an answer. */
  predicate IsAnswer(v: Value, id: int, result: Value) {
    && !v.Has("method")
    && v.Has("id") && v.fields["id"] == Num(id)
    && v.Has("result") && v.fields["result"] == result
    && (v.Has("error") ==> v.fields["error"] == Null)
  }

  lemma ReplyReads(ms: seq<Member>, id: int)
    requires |ms| == 4 && ms[0].key == "id" && ms[0].value == DNum(id) && ms[1].key == "jsonrpc"
    requires ms[2].key == "result" && ms[3].key == "error" && ms[3].value == DNull
    ensures IsAnswer(ValueOf(DObj(ms)), id, ValueOf(ms[2].value))
  {
    NoMember(ms, "method");
    MemberAt(ms, 0);
    MemberAt(ms, 2);
    MemberAt(ms, 3);
  }

  /** A login reply has no method, and its reader finds the id, the result and a null error. */
  lemma LoginReplyReads(id: int, fd: int, jobGiven: Option<Job>)
    requires CleanMsg(LoginReply(id, fd, jobGiven))
    ensures Parse(Text(LoginReply(id, fd, jobGiven))).Some?
    ensures var v := Parse(Text(LoginReply(id, fd, jobGiven))).value;
      && IsAnswer(v, id, ValueOf(LoginResult(fd, jobGiven)))
      && CarriesReply(v.fields["result"], jobGiven)
  {
    CleanMsgReads(LoginReply(id, fd, jobGiven));
    ReplyReads(Layout(LoginReply(id, fd, jobGiven)).members, id);
    LoginResultReads(fd, jobGiven);
  }

  /** The proxy's own answer to a share has a boolean result. */
  lemma SubmitAckReads(id: int)
    requires Int32(id)
    ensures Parse(Text(SubmitAck(id))).Some?
    ensures IsAnswer(Parse(Text(SubmitAck(id))).value, id, Bool(true))
  {
    var ms := Layout(SubmitAck(id)).members;
    CleanMsgReads(SubmitAck(id));
    NoMember(ms, "method");
    NoMember(ms, "error");
    MemberAt(ms, 0);
    MemberAt(ms, 2);
  }
}
