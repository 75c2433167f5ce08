/** The lines as the source writes them, literal text around the fields, one member at a time. */
module Texts {
  import opened Wrappers
  import opened Json
  import opened Stratum

  function Joined(ts: seq<string>): string {
    if |ts| == 0 then "" else if |ts| == 1 then ts[0] else ts[0] + "," + Joined(ts[1..])
  }

  /** Members between braces, with a comma and nothing else between two of them. */
  function Braces(ts: seq<string>): string {
    "{" + Joined(ts) + "}"
  }

  ghost predicate Writes(ms: seq<Member>, ts: seq<string>) {
    |ms| == |ts| > 0 && forall i :: 0 <= i < |ms| ==> PrintMember(ms[i]) == ts[i]
  }

  lemma {:induction false} MembersAreJoined(ms: seq<Member>, ts: seq<string>)
    requires Writes(ms, ts)
    ensures PrintMembers(ms) == Joined(ts) + "}"
  {
    if |ms| > 1 {
      MembersAreJoined(ms[1..], ts[1..]);
      MoreTexts(ts[0], Joined(ts[1..]));
    }
  }

  lemma MoreTexts(a: string, b: string)
    ensures a + ("," + (b + "}")) == a + "," + b + "}"
  {
  }

  lemma ObjectIsBraces(ms: seq<Member>, ts: seq<string>)
    requires Writes(ms, ts)
    ensures Print(DObj(ms)) == Braces(ts)
  {
    MembersAreJoined(ms, ts);
    MoreBraces(Joined(ts));
  }

  lemma MoreBraces(a: string)
    ensures "{" + (a + "}") == "{" + a + "}"
  {
  }

  /** What is written before the value of a member. */
  function Label(gap: string, key: string, space: string): string {
    gap + "\"" + key + "\":" + space
  }

  lemma MemberText(m: Member, before: string, value: string)
    requires Label(m.gap, m.key, m.space) == before && Print(m.value) == value
    ensures PrintMember(m) == before + value
  {
  }

  function Quoted(s: string): string {
    "\"" + s + "\""
  }

  // ----- Names ----------------------------------------------------------------------------------

  lemma TightNames()
    ensures Label("", "agent", "") == "\"agent\":"
    ensures Label("", "algo", "") == "\"algo\":"
    ensures Label("", "blob", "") == "\"blob\":"
    ensures Label("", "height", "") == "\"height\":"
    ensures Label("", "id", "") == "\"id\":"
    ensures Label("", "job_id", "") == "\"job_id\":"
  {
  }

  lemma TightHeads()
    ensures Label("", "jsonrpc", "") == "\"jsonrpc\":"
    ensures Label("", "login", "") == "\"login\":"
    ensures Label("", "method", "") == "\"method\":"
    ensures Label("", "params", "") == "\"params\":"
    ensures Label("", "pass", "") == "\"pass\":"
    ensures Label("", "target", "") == "\"target\":"
  {
  }

  lemma FirstNames()
    ensures Label("", "algo", " ") == "\"algo\": "
    ensures Label("", "id", " ") == "\"id\": "
  {
  }

  lemma JobNames()
    ensures Label(" ", "blob", " ") == " \"blob\": "
    ensures Label(" ", "height", " ") == " \"height\": "
    ensures Label(" ", "job", " ") == " \"job\": "
  {
  }

  lemma MoreJobNames()
    ensures Label(" ", "job_id", " ") == " \"job_id\": "
    ensures Label(" ", "target", " ") == " \"target\": "
  {
  }

  lemma ReplyNames()
    ensures Label(" ", "error", " ") == " \"error\": "
    ensures Label(" ", "jsonrpc", " ") == " \"jsonrpc\": "
    ensures Label(" ", "result", " ") == " \"result\": "
    ensures Label(" ", "status", " ") == " \"status\": "
  {
  }

  lemma RequestNames()
    ensures Label(" ", "method", " ") == " \"method\": "
    ensures Label(" ", "nonce", " ") == " \"nonce\": "
    ensures Label(" ", "params", " ") == " \"params\": "
  {
  }

  // ----- Lines to workers -----------------------------------------------------------------------

  function AckParts(id: int): seq<string> {
    ["\"id\": " + ToString(id),
     " \"jsonrpc\": " + Quoted("2.0"),
     " \"result\": " + "true"]
  }

  /** The acknowledgement of a share. */
  lemma AckText(id: int)
    ensures Text(SubmitAck(id)) == Braces(AckParts(id))
  {
    var ms := Layout(SubmitAck(id)).members;
    FirstNames();
    ReplyNames();
    MemberText(ms[0], "\"id\": ", ToString(id));
    MemberText(ms[1], " \"jsonrpc\": ", Quoted("2.0"));
    MemberText(ms[2], " \"result\": ", "true");
    ObjectIsBraces(ms, AckParts(id));
  }

  function AuthorizeParts(id: int, allowed: bool): seq<string> {
    ["\"id\": " + ToString(id),
     " \"result\": " + (if allowed then "true" else "false"),
     " \"error\": " + "null"]
  }

  /** The answer to an authorize. */
  lemma AuthorizeText(id: int, allowed: bool)
    ensures Text(AuthorizeReply(id, allowed)) == Braces(AuthorizeParts(id, allowed))
  {
    var ms := Layout(AuthorizeReply(id, allowed)).members;
    FirstNames();
    ReplyNames();
    MemberText(ms[0], "\"id\": ", ToString(id));
    MemberText(ms[1], " \"result\": ", (if allowed then "true" else "false"));
    MemberText(ms[2], " \"error\": ", "null");
    ObjectIsBraces(ms, AuthorizeParts(id, allowed));
  }

  function JobParts(job: Job): seq<string> {
    ["\"algo\": " + Quoted("cuckaroo"),
     " \"blob\": " + Quoted(job.blob),
     " \"job_id\": " + Quoted(job.jobId),
     " \"target\": " + Quoted(job.target),
     " \"height\": " + ToString(job.height)]
  }

  lemma JobParamsText(job: Job)
    ensures Print(JobParams(job)) == Braces(JobParts(job))
  {
    var ms := JobParams(job).members;
    FirstNames();
    JobNames();
    MoreJobNames();
    MemberText(ms[0], "\"algo\": ", Quoted("cuckaroo"));
    MemberText(ms[1], " \"blob\": ", Quoted(job.blob));
    MemberText(ms[2], " \"job_id\": ", Quoted(job.jobId));
    MemberText(ms[3], " \"target\": ", Quoted(job.target));
    MemberText(ms[4], " \"height\": ", ToString(job.height));
    ObjectIsBraces(ms, JobParts(job));
  }

  function NoticeParts(job: Job): seq<string> {
    ["\"jsonrpc\":" + Quoted("2.0"),
     " \"method\": " + Quoted("job"),
     " \"params\": " + Braces(JobParts(job))]
  }

  /** The job notice. */
  lemma JobText(job: Job)
    ensures Text(JobMsg(job)) == Braces(NoticeParts(job))
  {
    var ms := Layout(JobMsg(job)).members;
    JobParamsText(job);
    RequestNames();
    TightHeads();
    MemberText(ms[0], "\"jsonrpc\":", Quoted("2.0"));
    MemberText(ms[1], " \"method\": ", Quoted("job"));
    MemberText(ms[2], " \"params\": ", Braces(JobParts(job)));
    ObjectIsBraces(ms, NoticeParts(job));
  }

  function GivenParts(job: Job): seq<string> {
    ["\"algo\":" + Quoted("cuckaroo"),
     "\"blob\":" + Quoted(job.blob),
     "\"job_id\":" + Quoted(job.jobId),
     "\"target\":" + Quoted(job.target),
     "\"height\":" + ToString(job.height)]
  }

  /** The job inside a login reply has no blanks. */
  lemma GivenJobText(job: Job)
    ensures Print(GivenJob(job)) == Braces(GivenParts(job))
  {
    var ms := GivenJob(job).members;
    TightHeads();
    TightNames();
    MemberText(ms[0], "\"algo\":", Quoted("cuckaroo"));
    MemberText(ms[1], "\"blob\":", Quoted(job.blob));
    MemberText(ms[2], "\"job_id\":", Quoted(job.jobId));
    MemberText(ms[3], "\"target\":", Quoted(job.target));
    MemberText(ms[4], "\"height\":", ToString(job.height));
    ObjectIsBraces(ms, GivenParts(job));
  }

  function OkParts(fd: int): seq<string> {
    ["\"id\": " + Quoted(ToString(fd)),
     " \"status\": " + Quoted("OK")]
  }

  lemma LoginOkText(fd: int)
    ensures Print(LoginResult(fd, None)) == Braces(OkParts(fd))
  {
    var ms := LoginResult(fd, None).members;
    FirstNames();
    ReplyNames();
    MemberText(ms[0], "\"id\": ", Quoted(ToString(fd)));
    MemberText(ms[1], " \"status\": ", Quoted("OK"));
    ObjectIsBraces(ms, OkParts(fd));
  }

  function OkJobParts(fd: int, job: Job): seq<string> {
    ["\"id\": " + Quoted(ToString(fd)),
     " \"job\": " + Braces(GivenParts(job)),
     " \"status\": " + Quoted("OK")]
  }

  lemma LoginJobText(fd: int, job: Job)
    ensures Print(LoginResult(fd, Some(job))) == Braces(OkJobParts(fd, job))
  {
    var ms := LoginResult(fd, Some(job)).members;
    GivenJobText(job);
    FirstNames();
    JobNames();
    MoreJobNames();
    ReplyNames();
    MemberText(ms[0], "\"id\": ", Quoted(ToString(fd)));
    MemberText(ms[1], " \"job\": ", Braces(GivenParts(job)));
    MemberText(ms[2], " \"status\": ", Quoted("OK"));
    ObjectIsBraces(ms, OkJobParts(fd, job));
  }

  function ResultText(fd: int, given: Option<Job>): string {
    match given
    case None => Braces(OkParts(fd))
    case Some(job) => Braces(OkJobParts(fd, job))
  }

  lemma LoginResultText(fd: int, given: Option<Job>)
    ensures Print(LoginResult(fd, given)) == ResultText(fd, given)
  {
    match given
    case None => LoginOkText(fd);
    case Some(job) => LoginJobText(fd, job);
  }

  function LoginReplyParts(id: int, fd: int, given: Option<Job>): seq<string> {
    ["\"id\": " + ToString(id),
     " \"jsonrpc\": " + Quoted("2.0"),
     " \"result\": " + ResultText(fd, given),
     " \"error\": " + "null"]
  }

  /** The login reply, with the job if one is known. */
  lemma LoginReplyText(id: int, fd: int, given: Option<Job>)
    ensures Text(LoginReply(id, fd, given)) == Braces(LoginReplyParts(id, fd, given))
  {
    var ms := Layout(LoginReply(id, fd, given)).members;
    LoginResultText(fd, given);
    FirstNames();
    ReplyNames();
    MemberText(ms[0], "\"id\": ", ToString(id));
    MemberText(ms[1], " \"jsonrpc\": ", Quoted("2.0"));
    MemberText(ms[2], " \"result\": ", ResultText(fd, given));
    MemberText(ms[3], " \"error\": ", "null");
    ObjectIsBraces(ms, LoginReplyParts(id, fd, given));
  }

  // ----- Lines to pools -------------------------------------------------------------------------

  function CredentialParts(wallet: string, password: string): seq<string> {
    ["\"login\":" + Quoted(wallet),
     "\"pass\":" + Quoted(password),
     "\"agent\":" + Quoted("gpu-proxy/2.0")]
  }

  lemma LoginParamsText(wallet: string, password: string)
    ensures Print(LoginParams(wallet, password)) == Braces(CredentialParts(wallet, password))
  {
    var ms := LoginParams(wallet, password).members;
    TightHeads();
    TightNames();
    MemberText(ms[0], "\"login\":", Quoted(wallet));
    MemberText(ms[1], "\"pass\":", Quoted(password));
    MemberText(ms[2], "\"agent\":", Quoted("gpu-proxy/2.0"));
    ObjectIsBraces(ms, CredentialParts(wallet, password));
  }

  function LoginParts(wallet: string, password: string, id: int): seq<string> {
    ["\"method\":" + Quoted("login"),
     "\"params\":" + Braces(CredentialParts(wallet, password)),
     "\"id\":" + ToString(id)]
  }

  /** The login. */
  lemma LoginText(wallet: string, password: string, id: int)
    ensures Text(LoginMsg(wallet, password, id)) == Braces(LoginParts(wallet, password, id))
  {
    var ms := Layout(LoginMsg(wallet, password, id)).members;
    LoginParamsText(wallet, password);
    TightHeads();
    TightNames();
    MemberText(ms[0], "\"method\":", Quoted("login"));
    MemberText(ms[1], "\"params\":", Braces(CredentialParts(wallet, password)));
    MemberText(ms[2], "\"id\":", ToString(id));
    ObjectIsBraces(ms, LoginParts(wallet, password, id));
  }

  function ShareParts(worker: string, jobId: string, nonce: string, result: string): seq<string> {
    ["\"id\": " + Quoted(worker),
     " \"job_id\": " + Quoted(jobId),
     " \"nonce\": " + Quoted(nonce),
     " \"result\": " + Quoted(result)]
  }

  lemma ShareParamsText(worker: string, jobId: string, nonce: string, result: string)
    ensures Print(SubmitParams(worker, jobId, nonce, result)) == Braces(ShareParts(worker, jobId, nonce, result))
  {
    var ms := SubmitParams(worker, jobId, nonce, result).members;
    FirstNames();
    JobNames();
    MoreJobNames();
    ReplyNames();
    RequestNames();
    MemberText(ms[0], "\"id\": ", Quoted(worker));
    MemberText(ms[1], " \"job_id\": ", Quoted(jobId));
    MemberText(ms[2], " \"nonce\": ", Quoted(nonce));
    MemberText(ms[3], " \"result\": ", Quoted(result));
    ObjectIsBraces(ms, ShareParts(worker, jobId, nonce, result));
  }

  function SubmitParts(id: int, worker: string, jobId: string, nonce: string, result: string): seq<string> {
    ["\"id\": " + ToString(id),
     " \"method\": " + Quoted("submit"),
     " \"params\": " + Braces(ShareParts(worker, jobId, nonce, result)),
     " \"jsonrpc\": " + Quoted("2.0")]
  }

  /** The share. */
  lemma ShareText(id: int, worker: string, jobId: string, nonce: string, result: string)
    ensures Text(SubmitMsg(id, worker, jobId, nonce, result)) == Braces(SubmitParts(id, worker, jobId, nonce, result))
  {
    var ms := Layout(SubmitMsg(id, worker, jobId, nonce, result)).members;
    ShareParamsText(worker, jobId, nonce, result);
    FirstNames();
    ReplyNames();
    RequestNames();
    MemberText(ms[0], "\"id\": ", ToString(id));
    MemberText(ms[1], " \"method\": ", Quoted("submit"));
    MemberText(ms[2], " \"params\": ", Braces(ShareParts(worker, jobId, nonce, result)));
    MemberText(ms[3], " \"jsonrpc\": ", Quoted("2.0"));
    ObjectIsBraces(ms, SubmitParts(id, worker, jobId, nonce, result));
  }
}
