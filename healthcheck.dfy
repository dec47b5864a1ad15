/**
 * The container health check of the Gmail extractor
 * (gmail-extractor/app/healthcheck/check.py): three checks, each giving a
 * verdict and a message, run one after the other; every verdict is
 * reported on its own line and the process exits with 0 when all of them
 * passed and with 1 otherwise.
 *
 * The environment is a map, the manager's reply to the GET request is a
 * function of the URL, and the state of `/app/emails.json` is a value;
 * the printed lines are returned instead of written to standard output.
 */
module Healthcheck {
  import opened Common
  import opened Text

  type Env = map<string, string>

  /** `not os.getenv(name)`: the variable is missing or empty. */
  predicate Unset(env: Env, name: string) {
    name !in env || env[name] == ""
  }

  /** What a check returns: the verdict and the message. */
  datatype Verdict = Verdict(healthy: bool, message: string)

  // ---------------------------------------------------------------------
  // gmail_env_variables_are_set
  // ---------------------------------------------------------------------

  const GmailEnvVariables: seq<string> := ["EMAIL_ADDRESS", "EMAIL_APP_PASSWORD"]

  /** The names among `names` that are unset or empty, in their order. */
  function Missing(env: Env, names: seq<string>): seq<string>
    decreases |names|
  {
    if names == [] then []
    else
      var init := Missing(env, names[..|names| - 1]);
      if Unset(env, names[|names| - 1]) then init + [names[|names| - 1]] else init
  }

  /** A name is reported missing exactly when it is checked and unset; the list is no longer than the names checked. */
  lemma {:induction false} MissingMembers(env: Env, names: seq<string>)
    ensures |Missing(env, names)| <= |names|
    ensures forall x :: x in Missing(env, names) <==> x in names && Unset(env, x)
    decreases |names|
  {
    if names != [] {
      var init := names[..|names| - 1];
      MissingMembers(env, init);
      assert names == init + [names[|names| - 1]];
    }
  }

  /** The missing list of the two Gmail variables, in declared order. */
  lemma GmailMissingInOrder(env: Env)
    ensures Missing(env, GmailEnvVariables)
         == (if Unset(env, "EMAIL_ADDRESS") then ["EMAIL_ADDRESS"] else [])
          + (if Unset(env, "EMAIL_APP_PASSWORD") then ["EMAIL_APP_PASSWORD"] else [])
  {
    assert GmailEnvVariables[..1] == ["EMAIL_ADDRESS"];
    assert GmailEnvVariables[..1][..0] == [];
  }

  const EnvMessagePrefix := "The following env variables are not set in .env: "

  /**
   * `gmail_env_variables_are_set`: collects the unset names in a loop; the
   * check fails, naming them joined by ',', exactly when one is missing.
   */
  method GmailEnvVariablesAreSet(env: Env) returns (healthy: bool, message: string)
    ensures healthy <==> Missing(env, GmailEnvVariables) == []
    ensures healthy ==> message == "Able to read GMail env variables"
    ensures !healthy ==> message == EnvMessagePrefix + Join(",", Missing(env, GmailEnvVariables))
  {
    var names := GmailEnvVariables;
    var missing: seq<string> := [];
    var i := 0;
    while i < |names|
      invariant i <= |names|
      invariant missing == Missing(env, names[..i])
    {
      assert names[..i + 1][..i] == names[..i];
      if Unset(env, names[i]) {
        missing := missing + [names[i]];
      }
      i := i + 1;
    }
    assert names[..i] == names;
    if missing != [] {
      return false, EnvMessagePrefix + Join(",", missing);
    }
    return true, "Able to read GMail env variables";
  }

  /** With both variables set the check passes; with either unset it fails. */
  lemma GmailCheckPassesIffBothSet(env: Env)
    ensures Missing(env, GmailEnvVariables) == [] <==> !Unset(env, "EMAIL_ADDRESS") && !Unset(env, "EMAIL_APP_PASSWORD")
  {
    GmailMissingInOrder(env);
  }

  // ---------------------------------------------------------------------
  // manager_api_is_reachable
  // ---------------------------------------------------------------------

  /** What `requests.get` does: a response with a status, or an exception with its text. */
  datatype HttpOutcome = Response(status: int) | Exception(text: string)

  /** A check that may send one GET request, and the URL it sent it to. */
  datatype Probe = Probe(request: Option<string>, verdict: Verdict)

  const HttpOk := 200

  /** `manager_api_is_reachable`, where `reply` says what a GET of each URL gives. */
  function ManagerApiIsReachable(env: Env, reply: string -> HttpOutcome): (p: Probe)
    ensures p.request.None? <==> Unset(env, "MANAGER_ENDPOINT")
    ensures p.request.Some? ==> p.request.value == env["MANAGER_ENDPOINT"]
    ensures p.verdict.healthy <==> p.request.Some? && reply(p.request.value) == Response(HttpOk)
  {
    if Unset(env, "MANAGER_ENDPOINT") then
      Probe(None, Verdict(false, "Missing MANAGER_ENDPOINT. Check the .env file."))
    else
      var endpoint := env["MANAGER_ENDPOINT"];
      match reply(endpoint)
      case Exception(e) => Probe(Some(endpoint), Verdict(false, "Exception during request " + e))
      case Response(status) =>
        if status == HttpOk then Probe(Some(endpoint), Verdict(true, "Manager API is OK."))
        else Probe(Some(endpoint), Verdict(false, "Manager endpoint is not reachable"))
  }

  /** Every failure of the reachability check comes with the message of its cause. */
  lemma ReachabilityMessages(env: Env, reply: string -> HttpOutcome)
    ensures var p := ManagerApiIsReachable(env, reply);
      && (Unset(env, "MANAGER_ENDPOINT") ==> p.verdict.message == "Missing MANAGER_ENDPOINT. Check the .env file.")
      && (!Unset(env, "MANAGER_ENDPOINT") && reply(env["MANAGER_ENDPOINT"]).Exception? ==>
            p.verdict.message == "Exception during request " + reply(env["MANAGER_ENDPOINT"]).text)
      && (!Unset(env, "MANAGER_ENDPOINT") && reply(env["MANAGER_ENDPOINT"]).Response?
          && reply(env["MANAGER_ENDPOINT"]).status != HttpOk ==>
            p.verdict.message == "Manager endpoint is not reachable")
  {
  }

  // ---------------------------------------------------------------------
  // emails_json_is_correctly_defined
  // ---------------------------------------------------------------------

  const EmailsJsonPath := "/app/emails.json"

  /**
   * The state of the e-mail list file: absent, present but failing to be
   * read (with the error's text), or read, with the JSON decoder's error
   * if the text is not valid JSON.
   */
  datatype JsonFile = Absent | Unreadable(reason: string) | Read(decodeError: Option<string>)

  const MissingFileMessage := "File /app/emails.json does not exist. Create a file emails.json using the emails-example.json as a model."

  /**
   * `emails_json_is_correctly_defined`: passes exactly when the file exists,
   * can be read and decodes as JSON; each failure names the path.
   */
  function EmailsJsonIsCorrectlyDefined(file: JsonFile): (v: Verdict)
    ensures v.healthy <==> file.Read? && file.decodeError.None?
  {
    match file
    case Absent => Verdict(false, MissingFileMessage)
    case Unreadable(reason) => Verdict(false, "Error while reading " + EmailsJsonPath + ": " + reason)
    case Read(None) => Verdict(true, "emails.json is correctly defined.")
    case Read(Some(e)) => Verdict(false, "Invalid JSON format in " + EmailsJsonPath + ": " + e)
  }

  // ---------------------------------------------------------------------
  // healthcheck
  // ---------------------------------------------------------------------

  /** The line printed for one named check. */
  function Line(name: string, v: Verdict): string {
    if v.healthy then name + ": " + v.message else name + " FAILED: " + v.message
  }

  /** Whether every check in the list passed. */
  predicate AllHealthy(checks: seq<(string, Verdict)>) {
    forall k :: 0 <= k < |checks| ==> checks[k].1.healthy
  }

  /**
   * The loop of `healthcheck`: every check is reported, a failing one does
   * not stop the others, and the exit code is 0 exactly when all passed.
   */
  method Report(checks: seq<(string, Verdict)>) returns (lines: seq<string>, exitCode: int)
    ensures |lines| == |checks|
    ensures forall k :: 0 <= k < |checks| ==> lines[k] == Line(checks[k].0, checks[k].1)
    ensures exitCode == 0 || exitCode == 1
    ensures exitCode == 0 <==> AllHealthy(checks)
  {
    var allHealthy := true;
    lines := [];
    var i := 0;
    while i < |checks|
      invariant i <= |checks|
      invariant |lines| == i
      invariant forall k :: 0 <= k < i ==> lines[k] == Line(checks[k].0, checks[k].1)
      invariant allHealthy <==> forall k :: 0 <= k < i ==> checks[k].1.healthy
    {
      var (name, v) := checks[i];
      if !v.healthy {
        lines := lines + [name + " FAILED: " + v.message];
        allHealthy := false;
      } else {
        lines := lines + [name + ": " + v.message];
      }
      i := i + 1;
    }
    exitCode := if allHealthy then 0 else 1;
  }

  const ManagerCheck := "Manager API is Reachable"
  const GmailCheck := "GMail env variables"
  const EmailsJsonCheck := "emails.json is defined"

  /** Three checks are all healthy exactly when each of them is. */
  lemma AllHealthyOfThree(a: Verdict, b: Verdict, c: Verdict)
    ensures AllHealthy([(ManagerCheck, a), (GmailCheck, b), (EmailsJsonCheck, c)]) <==> a.healthy && b.healthy && c.healthy
  {
    var checks := [(ManagerCheck, a), (GmailCheck, b), (EmailsJsonCheck, c)];
    assert checks[0].1 == a && checks[1].1 == b && checks[2].1 == c;
  }

  /**
   * `healthcheck`: the three checks in the dictionary's order; the process
   * is healthy exactly when the manager answered the GET with 200, both
   * Gmail variables are set, and the e-mail list is valid JSON.
   */
  method Healthcheck(env: Env, reply: string -> HttpOutcome, file: JsonFile) returns (lines: seq<string>, exitCode: int)
    ensures |lines| == 3
    ensures lines[0] == Line(ManagerCheck, ManagerApiIsReachable(env, reply).verdict)
    ensures var missing := Missing(env, GmailEnvVariables);
      lines[1] == Line(GmailCheck, Verdict(missing == [], if missing == [] then "Able to read GMail env variables"
                                                         else EnvMessagePrefix + Join(",", missing)))
    ensures lines[2] == Line(EmailsJsonCheck, EmailsJsonIsCorrectlyDefined(file))
    ensures exitCode == 0 || exitCode == 1
    ensures exitCode == 0 <==>
      && !Unset(env, "MANAGER_ENDPOINT") && reply(env["MANAGER_ENDPOINT"]) == Response(HttpOk)
      && !Unset(env, "EMAIL_ADDRESS") && !Unset(env, "EMAIL_APP_PASSWORD")
      && file == Read(None)
  {
    var reachable := ManagerApiIsReachable(env, reply).verdict;
    var gmailHealthy, gmailMessage := GmailEnvVariablesAreSet(env);
    var json := EmailsJsonIsCorrectlyDefined(file);
    GmailCheckPassesIffBothSet(env);
    AllHealthyOfThree(reachable, Verdict(gmailHealthy, gmailMessage), json);
    lines, exitCode := Report([(ManagerCheck, reachable), (GmailCheck, Verdict(gmailHealthy, gmailMessage)),
                               (EmailsJsonCheck, json)]);
  }
}
