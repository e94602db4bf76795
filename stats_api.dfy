/**
 * The statistics endpoint `results/api.php`. One request is one pass through a
 * straight-line script: `login` and `check` are answered first, then a guard turns
 * away every request whose session is not logged in, then `logout` and `stats` are
 * answered, and any other operation is refused. Each path ends with a fixed HTTP
 * status and a JSON body; only `login` and `logout` write the session flag
 * `$_SESSION['logged']`.
 */
module StatsApi {
  import opened Wrappers

  /** One stored test as the summary reads it: `floatval` of its `dl`, `ul` and `ping`
      columns. The other columns of a row are not modelled. */
  datatype Row = Row(dl: real, ul: real, ping: real)

  /** What `getLatestSpeedtestUsers()` returns: `false`, or the rows. */
  datatype Fetch = FetchFailed | Fetched(rows: seq<Row>)

  datatype Summary = Summary(totalTests: nat, avgDownload: real, avgUpload: real, avgPing: real)

  /** The JSON bodies the script echoes. */
  datatype Body =
    | Success                                        // {"success": true}
    | Failure(message: string)                       // {"success": false, "message": ...}
    | LoggedStatus(logged: bool)                     // {"logged": ...}
    | StatsReport(summary: Summary, results: seq<Row>)

  /** The request: `$_GET['op']` and `$_POST['password']`, either of which may be missing. */
  datatype Request = Request(op: Option<string>, password: Option<string>)

  /** The status code, the body and the session flag afterwards (`None`: not set). */
  datatype Reply = Reply(status: int, body: Body, session: Option<bool>)

  /** `$_GET['op'] ?? ''`. */
  function OpOf(req: Request): string {
    req.op.GetOr("")
  }

  /** `isset($_SESSION['logged']) && $_SESSION['logged'] === true`. */
  predicate LoggedIn(session: Option<bool>) {
    session == Some(true)
  }

  function Dl(r: Row): real { r.dl }
  function Ul(r: Row): real { r.ul }
  function Ping(r: Row): real { r.ping }

  /** The sum of one column over the rows. */
  function SumOf(rows: seq<Row>, column: Row -> real): real
    decreases |rows|
  {
    if rows == [] then 0.0 else SumOf(rows[..|rows| - 1], column) + column(rows[|rows| - 1])
  }

  /** The summary: the number of rows, and each column's mean (0 when there are none). */
  function Summarize(rows: seq<Row>): (s: Summary)
    ensures s.totalTests == |rows|
    ensures |rows| == 0 ==> s.avgDownload == 0.0 && s.avgUpload == 0.0 && s.avgPing == 0.0
    ensures |rows| > 0 ==> s.avgDownload * (|rows| as real) == SumOf(rows, Dl)
    ensures |rows| > 0 ==> s.avgUpload * (|rows| as real) == SumOf(rows, Ul)
    ensures |rows| > 0 ==> s.avgPing * (|rows| as real) == SumOf(rows, Ping)
  {
    var n := |rows|;
    if n == 0 then Summary(0, 0.0, 0.0, 0.0)
    else Summary(n, SumOf(rows, Dl) / n as real, SumOf(rows, Ul) / n as real, SumOf(rows, Ping) / n as real)
  }

  /** The summary loop: sums the three columns row by row, then divides by the count. */
  method SummarizeRows(rows: seq<Row>) returns (summary: Summary)
    ensures summary == Summarize(rows)
  {
    var total := |rows|;
    var avgDl, avgUl, avgPing := 0.0, 0.0, 0.0;
    if total > 0 {
      var i := 0;
      while i < total
        invariant 0 <= i <= total
        invariant avgDl == SumOf(rows[..i], Dl)
        invariant avgUl == SumOf(rows[..i], Ul)
        invariant avgPing == SumOf(rows[..i], Ping)
      {
        assert rows[..i + 1][..i] == rows[..i];
        avgDl := avgDl + rows[i].dl;
        avgUl := avgUl + rows[i].ul;
        avgPing := avgPing + rows[i].ping;
        i := i + 1;
      }
      assert rows[..total] == rows;
      avgDl := avgDl / total as real;
      avgUl := avgUl / total as real;
      avgPing := avgPing / total as real;
    }
    summary := Summary(total, avgDl, avgUl, avgPing);
  }

  /** One request, given the configured `$stats_password` (`None` when it is not set),
      the session flag, and what fetching the tests would return. */
  function Respond(req: Request, statsPassword: Option<string>, session: Option<bool>, fetch: Fetch): (r: Reply)
    ensures r.status in {200, 400, 401, 403, 500}
    ensures r.status == 200 <==> !r.body.Failure?
    ensures r.status == 403 <==> OpOf(req) != "login" && OpOf(req) != "check" && !LoggedIn(session)
    ensures r.session != session ==>
              (OpOf(req) == "login" && r.session == Some(true)) ||
              (OpOf(req) == "logout" && LoggedIn(session) && r.session == Some(false))
  {
    var op := OpOf(req);
    if op == "login" then
      if statsPassword.Some? && req.password.GetOr("") == statsPassword.value then
        Reply(200, Success, Some(true))
      else
        Reply(401, Failure("Invalid password"), session)
    else if op == "check" then
      Reply(200, LoggedStatus(LoggedIn(session)), session)
    else if !LoggedIn(session) then
      Reply(403, Failure("Not authenticated"), session)
    else if op == "logout" then
      Reply(200, Success, Some(false))
    else if op == "stats" then
      match fetch
      case FetchFailed => Reply(500, Failure("Error fetching tests"), session)
      case Fetched(rows) => Reply(200, StatsReport(Summarize(rows), rows), session)
    else
      Reply(400, Failure("Invalid operation"), session)
  }

  /** `login` succeeds exactly when a password is configured and the posted one (or ''
      when none is posted) equals it; it then logs the session in. Otherwise it answers
      401 and leaves the session as it was, so a wrong password does not log out. */
  lemma LoginOutcome(req: Request, statsPassword: Option<string>, session: Option<bool>, fetch: Fetch)
    requires OpOf(req) == "login"
    ensures var r := Respond(req, statsPassword, session, fetch);
      var accepted := statsPassword.Some? && req.password.GetOr("") == statsPassword.value;
      && (accepted ==> r == Reply(200, Success, Some(true)))
      && (!accepted ==> r.status == 401 && r.session == session)
  {
  }

  /** `check` never changes the session and reports `logged` exactly when the flag is `true`. */
  lemma CheckOutcome(req: Request, statsPassword: Option<string>, session: Option<bool>, fetch: Fetch)
    requires OpOf(req) == "check"
    ensures var r := Respond(req, statsPassword, session, fetch);
      r.status == 200 && r.session == session && (r.body == LoggedStatus(true) <==> session == Some(true))
  {
  }

  /** Every other operation, `logout` included, is refused with 403 and leaves the session
      alone unless the session is logged in. */
  lemma GuardOutcome(req: Request, statsPassword: Option<string>, session: Option<bool>, fetch: Fetch)
    requires OpOf(req) != "login" && OpOf(req) != "check" && !LoggedIn(session)
    ensures Respond(req, statsPassword, session, fetch) == Reply(403, Failure("Not authenticated"), session)
  {
  }

  /** `logout` of a logged-in session clears the flag and succeeds. */
  lemma LogoutOutcome(req: Request, statsPassword: Option<string>, fetch: Fetch)
    requires OpOf(req) == "logout"
    ensures Respond(req, statsPassword, Some(true), fetch) == Reply(200, Success, Some(false))
  {
  }

  /** `stats` of a logged-in session: 500 when the fetch fails; otherwise the report, whose
      count is the number of rows and whose means are 0 when there are no rows. */
  lemma StatsOutcome(req: Request, statsPassword: Option<string>, fetch: Fetch)
    requires OpOf(req) == "stats"
    ensures var r := Respond(req, statsPassword, Some(true), fetch);
      && r.session == Some(true)
      && (fetch.FetchFailed? ==> r.status == 500)
      && (fetch.Fetched? ==>
            && r.status == 200 && r.body.StatsReport? && r.body.results == fetch.rows
            && r.body.summary.totalTests == |fetch.rows|
            && (|fetch.rows| == 0 ==> r.body.summary == Summary(0, 0.0, 0.0, 0.0)))
  {
  }

  /** A missing `op` is the empty operation, and an operation the script does not know,
      asked by a logged-in session, is refused with 400. */
  lemma UnknownOpOutcome(req: Request, statsPassword: Option<string>, fetch: Fetch)
    requires OpOf(req) !in {"login", "check", "logout", "stats"}
    ensures Respond(req, statsPassword, Some(true), fetch) == Reply(400, Failure("Invalid operation"), Some(true))
    ensures Respond(Request(None, req.password), statsPassword, Some(true), fetch) ==
            Respond(Request(Some(""), req.password), statsPassword, Some(true), fetch)
  {
  }

  /** The session store of one browser, across requests. */
  class Session {
    var logged: Option<bool>

    constructor ()
      ensures logged.None?
    {
      logged := None;
    }

    /** The script run once for a request; `fetch` is what fetching the tests returns when
        the `stats` branch asks for them. */
    method Handle(req: Request, statsPassword: Option<string>, fetch: Fetch) returns (status: int, body: Body)
      modifies this
      ensures Reply(status, body, logged) == Respond(req, statsPassword, old(logged), fetch)
    {
      status := 200;
      var op := req.op.GetOr("");

      if op == "login" {
        var password := req.password.GetOr("");
        if statsPassword.Some? && password == statsPassword.value {
          logged := Some(true);
          body := Success;
        } else {
          status := 401;
          body := Failure("Invalid password");
        }
        return;
      }

      if op == "check" {
        body := LoggedStatus(logged.Some? && logged.value == true);
        return;
      }

      if logged.None? || logged.value != true {
        status := 403;
        body := Failure("Not authenticated");
        return;
      }

      if op == "logout" {
        logged := Some(false);
        body := Success;
        return;
      }

      if op == "stats" {
        if fetch.FetchFailed? {
          status := 500;
          body := Failure("Error fetching tests");
          return;
        }
        var summary := SummarizeRows(fetch.rows);
        body := StatsReport(summary, fetch.rows);
        return;
      }

      status := 400;
      body := Failure("Invalid operation");
    }
  }
}
