/**
 * The activity logger of `utils/logActivity.utils.js`: it classifies the
 * request's user agent, picks a session token, builds one activity record
 * and appends it to the user's log, creating the log when there is none. A
 * failed write is swallowed: the caller never sees an error.
 */
module LogActivity {
  import opened Common

  /** The user-agent classification. */
  datatype Agent = Agent(device: string, browser: string, platform: string)

  /** The parts of the request the logger reads. */
  datatype Request = Request(authorization: Option<string>, accessTokenCookie: Option<string>,
                             userAgent: Option<string>, ip: Option<string>, remoteAddress: string)

  /** One logged activity; `createdAt` is the time it was stored. */
  datatype Activity = Activity(
    eventId: Id, eventType: string, description: string,
    entityType: Option<string>, entityId: Option<Id>, sessionId: Option<string>,
    props: map<string, string>, createdAt: int)

  /** One classification rule: it matches a lower-cased agent that contains
      one of `anyOf` and none of `noneOf`, and then gives `gives`. */
  datatype Rule = Rule(anyOf: seq<string>, noneOf: seq<string>, gives: string)

  predicate Matches(u: string, r: Rule)
  {
    (exists i :: 0 <= i < |r.anyOf| && Contains(u, r.anyOf[i]))
    && forall i :: 0 <= i < |r.noneOf| ==> !Contains(u, r.noneOf[i])
  }

  /** The label of the first matching rule, or `fallback` when none matches. */
  function FirstMatch(u: string, rules: seq<Rule>, fallback: string): string
  {
    if rules == [] then fallback
    else if Matches(u, rules[0]) then rules[0].gives
    else FirstMatch(u, rules[1..], fallback)
  }

  /** The browser rules, in the order they are tried. */
  const BrowserRules: seq<Rule> := [
    Rule(["chrome"], ["edg"], "Chrome"),
    Rule(["firefox"], [], "Firefox"),
    Rule(["safari"], ["chrome"], "Safari"),
    Rule(["edg"], [], "Edge")]

  /** The platform rules, in the order they are tried. */
  const PlatformRules: seq<Rule> := [
    Rule(["windows"], [], "Windows"),
    Rule(["mac"], [], "MacOS"),
    Rule(["linux"], [], "Linux"),
    Rule(["android"], [], "Android"),
    Rule(["iphone", "ipad"], [], "iOS")]

  /** A rule's label is the answer exactly when that rule matches and no
      earlier one does. */
  lemma {:induction false} FirstMatchIsFirst(u: string, rules: seq<Rule>, fallback: string, k: nat)
    requires k < |rules|
    requires Matches(u, rules[k]) && forall j :: 0 <= j < k ==> !Matches(u, rules[j])
    ensures FirstMatch(u, rules, fallback) == rules[k].gives
  {
    if k > 0 {
      assert !Matches(u, rules[0]);
      FirstMatchIsFirst(u, rules[1..], fallback, k - 1);
    }
  }

  /** When no rule matches, the fallback is the answer. */
  lemma {:induction false} FirstMatchFallback(u: string, rules: seq<Rule>, fallback: string)
    requires forall j :: 0 <= j < |rules| ==> !Matches(u, rules[j])
    ensures FirstMatch(u, rules, fallback) == fallback
  {
    if rules != [] {
      assert !Matches(u, rules[0]);
      FirstMatchFallback(u, rules[1..], fallback);
    }
  }

  /** The answer is the label of some matching rule or the fallback. */
  lemma {:induction false} FirstMatchFrom(u: string, rules: seq<Rule>, fallback: string)
    ensures FirstMatch(u, rules, fallback) == fallback
            || exists k :: 0 <= k < |rules| && Matches(u, rules[k]) && FirstMatch(u, rules, fallback) == rules[k].gives
  {
    if rules != [] && !Matches(u, rules[0]) {
      FirstMatchFrom(u, rules[1..], fallback);
      if FirstMatch(u, rules, fallback) != fallback {
        var k :| 0 <= k < |rules[1..]| && Matches(u, rules[1..][k]) && FirstMatch(u, rules[1..], fallback) == rules[1..][k].gives;
        assert rules[k + 1] == rules[1..][k];
      }
    }
  }

  /** A rule with one word to find and at most one to avoid. */
  lemma MatchesOne(u: string, r: Rule)
    requires |r.anyOf| == 1 && |r.noneOf| <= 1
    ensures Matches(u, r) <==> Contains(u, r.anyOf[0]) && (|r.noneOf| == 1 ==> !Contains(u, r.noneOf[0]))
  {
    if Contains(u, r.anyOf[0]) {
      assert 0 <= 0 < |r.anyOf| && Contains(u, r.anyOf[0]);
    }
  }

  /** What each browser rule asks of the agent. */
  lemma BrowserRulesRead(u: string)
    ensures Matches(u, BrowserRules[0]) <==> Contains(u, "chrome") && !Contains(u, "edg")
    ensures Matches(u, BrowserRules[1]) <==> Contains(u, "firefox")
    ensures Matches(u, BrowserRules[2]) <==> Contains(u, "safari") && !Contains(u, "chrome")
    ensures Matches(u, BrowserRules[3]) <==> Contains(u, "edg")
  {
    MatchesOne(u, BrowserRules[0]);
    MatchesOne(u, BrowserRules[1]);
    MatchesOne(u, BrowserRules[2]);
    MatchesOne(u, BrowserRules[3]);
  }

  /** What each platform rule asks of the agent. */
  lemma PlatformRulesRead(u: string)
    ensures Matches(u, PlatformRules[0]) <==> Contains(u, "windows")
    ensures Matches(u, PlatformRules[1]) <==> Contains(u, "mac")
    ensures Matches(u, PlatformRules[2]) <==> Contains(u, "linux")
    ensures Matches(u, PlatformRules[3]) <==> Contains(u, "android")
    ensures Matches(u, PlatformRules[4]) <==> Contains(u, "iphone") || Contains(u, "ipad")
  {
    MatchesOne(u, PlatformRules[0]);
    MatchesOne(u, PlatformRules[1]);
    MatchesOne(u, PlatformRules[2]);
    MatchesOne(u, PlatformRules[3]);
    var r := PlatformRules[4];
    if Contains(u, "iphone") {
      assert Contains(u, r.anyOf[0]);
    } else if Contains(u, "ipad") {
      assert Contains(u, r.anyOf[1]);
    }
  }

  /** The browser: the first of the `if`/`else if` chain that holds. */
  function Browser(u: string): (b: string)
    ensures b == FirstMatch(u, BrowserRules, "Unknown")
  {
    BrowserRulesRead(u);
    var rs := BrowserRules;
    if Contains(u, "chrome") && !Contains(u, "edg") then
      FirstMatchIsFirst(u, rs, "Unknown", 0);
      "Chrome"
    else if Contains(u, "firefox") then
      FirstMatchIsFirst(u, rs, "Unknown", 1);
      "Firefox"
    else if Contains(u, "safari") && !Contains(u, "chrome") then
      FirstMatchIsFirst(u, rs, "Unknown", 2);
      "Safari"
    else if Contains(u, "edg") then
      FirstMatchIsFirst(u, rs, "Unknown", 3);
      "Edge"
    else
      FirstMatchFallback(u, rs, "Unknown");
      "Unknown"
  }

  /** The platform: the first of the `if`/`else if` chain that holds. */
  function Platform(u: string): (p: string)
    ensures p == FirstMatch(u, PlatformRules, "Unknown")
  {
    PlatformRulesRead(u);
    var rs := PlatformRules;
    if Contains(u, "windows") then
      FirstMatchIsFirst(u, rs, "Unknown", 0);
      "Windows"
    else if Contains(u, "mac") then
      FirstMatchIsFirst(u, rs, "Unknown", 1);
      "MacOS"
    else if Contains(u, "linux") then
      FirstMatchIsFirst(u, rs, "Unknown", 2);
      "Linux"
    else if Contains(u, "android") then
      FirstMatchIsFirst(u, rs, "Unknown", 3);
      "Android"
    else if Contains(u, "iphone") || Contains(u, "ipad") then
      FirstMatchIsFirst(u, rs, "Unknown", 4);
      "iOS"
    else
      FirstMatchFallback(u, rs, "Unknown");
      "Unknown"
  }

  /** `parseUserAgent`: empty fields without a user agent; otherwise the
      lower-cased string decides, browser and platform by the first
      matching rule of their lists. */
  function ParseUserAgent(userAgent: Option<string>): (a: Agent)
    ensures !Truthy(userAgent) ==> a == Agent("", "", "")
    ensures Truthy(userAgent) ==>
              var u := ToLower(userAgent.value);
              (a.device == "Mobile" <==> Contains(u, "mobile"))
              && (a.device == "Desktop" <==> !Contains(u, "mobile"))
              && a.browser == FirstMatch(u, BrowserRules, "Unknown")
              && a.platform == FirstMatch(u, PlatformRules, "Unknown")
  {
    if !Truthy(userAgent) then Agent("", "", "")
    else
      var u := ToLower(userAgent.value);
      Agent(if Contains(u, "mobile") then "Mobile" else "Desktop", Browser(u), Platform(u))
  }

  /** A Firefox agent without `chrome` is reported as Firefox, even when it
      also names Safari or Edge. */
  lemma FirefoxBeforeSafariAndEdge(s: string)
    requires s != "" && Contains(ToLower(s), "firefox") && !Contains(ToLower(s), "chrome")
    ensures ParseUserAgent(Some(s)).browser == "Firefox"
  {
    BrowserRulesRead(ToLower(s));
  }

  /** An agent naming Chrome is Chrome without `edg`; with `edg` it is
      Firefox when it also names Firefox, else Edge. */
  lemma ChromeAndEdgeSeparated(s: string)
    requires s != "" && Contains(ToLower(s), "chrome")
    ensures ParseUserAgent(Some(s)).browser == (if !Contains(ToLower(s), "edg") then "Chrome"
                                                else if Contains(ToLower(s), "firefox") then "Firefox"
                                                else "Edge")
  {
    BrowserRulesRead(ToLower(s));
  }

  /** Classification ignores case: a user agent and its lower-case form are classified alike. */
  lemma ClassificationIgnoresCase(s: string)
    ensures ParseUserAgent(Some(ToLower(s))) == ParseUserAgent(Some(s))
  {
    ToLowerIdempotent(s);
    assert ToLower(s) == "" <==> s == "";
  }

  /** An Android user agent carries `Linux`, and the Linux rule comes first. */
  lemma AndroidReportsLinux(s: string)
    requires Contains(ToLower(s), "linux") && Contains(ToLower(s), "android")
    requires !Contains(ToLower(s), "windows") && !Contains(ToLower(s), "mac")
    ensures ParseUserAgent(Some(s)).platform == "Linux"
  {
  }

  /** The position of the first `c` in `s`. */
  function IndexOf(s: string, c: char): (r: Option<nat>)
    ensures r.Some? ==> r.value < |s| && s[r.value] == c && forall i :: 0 <= i < r.value ==> s[i] != c
    ensures r.None? ==> forall i :: 0 <= i < |s| ==> s[i] != c
  {
    if s == "" then None
    else if s[0] == c then Some(0)
    else
      var k := IndexOf(s[1..], c);
      if k.Some? then Some(k.value + 1) else None
  }

  /** `w` is `s[i + 1..j]`, where `i` is the first space of `s` and `j` the
      next space after it or the end of `s`. */
  predicate WordAfterFirstSpace(s: string, w: string, i: int, j: int)
  {
    0 <= i < j <= |s| && s[i] == ' ' && ' ' !in s[..i]
    && w == s[i + 1..j] && (j == |s| || s[j] == ' ')
  }

  /** `s.split(' ')[1]`: the text between the first and the second space,
      or `None` when there is no space. */
  function SecondField(s: string): (r: Option<string>)
    ensures r.Some? ==> ' ' !in r.value
    ensures r.Some? <==> ' ' in s
    ensures r.Some? ==> exists i, j :: WordAfterFirstSpace(s, r.value, i, j)
  {
    var i := IndexOf(s, ' ');
    if i.None? then None
    else
      var rest := s[i.value + 1..];
      var j := IndexOf(rest, ' ');
      assert ' ' !in s[..i.value];
      if j.None? then
        assert WordAfterFirstSpace(s, rest, i.value, |s|);
        Some(rest)
      else
        var end := i.value + 1 + j.value;
        assert rest[..j.value] == s[i.value + 1..end] && s[end] == ' ';
        assert WordAfterFirstSpace(s, rest[..j.value], i.value, end);
        Some(rest[..j.value])
  }

  /** The session token: the second word of the `Authorization` header,
      else the `accessToken` cookie, else the given session id, each only
      when it is a non-empty string. */
  function SessionToken(req: Request, sessionId: Option<string>): (t: Option<string>)
    ensures req.authorization.Some? && Truthy(SecondField(req.authorization.value)) ==>
              t == SecondField(req.authorization.value)
    ensures !(req.authorization.Some? && Truthy(SecondField(req.authorization.value))) && Truthy(req.accessTokenCookie) ==>
              t == req.accessTokenCookie
    ensures !(req.authorization.Some? && Truthy(SecondField(req.authorization.value))) && !Truthy(req.accessTokenCookie) ==>
              t == sessionId
  {
    var header := if req.authorization.Some? then SecondField(req.authorization.value) else None;
    if Truthy(header) then header
    else if Truthy(req.accessTokenCookie) then req.accessTokenCookie
    else sessionId
  }

  /** A `Bearer <token>` header supplies the session token, whatever the
      cookie and the argument hold. */
  lemma BearerHeaderGivesSession(req: Request, token: string, sessionId: Option<string>)
    requires token != "" && ' ' !in token
    requires req.authorization == Some("Bearer " + token)
    ensures SessionToken(req, sessionId) == Some(token)
  {
    var h := "Bearer " + token;
    assert h[6] == ' ';
    var i, j :| WordAfterFirstSpace(h, SecondField(h).value, i, j);
    assert i == 6 && j == |h| && h[7..] == token;
  }

  /** The `props` of an activity: geo location (given or empty), IP address,
      and the user-agent fields, with every key of `additionalProps`
      overriding the computed one. */
  function Props(req: Request, additionalProps: map<string, string>): (p: map<string, string>)
    ensures p.Keys == {"geo_location", "ip_address", "device", "browser", "platform"} + additionalProps.Keys
    ensures forall k :: k in additionalProps ==> p[k] == additionalProps[k]
    ensures "geo_location" !in additionalProps ==> p["geo_location"] == ""
    ensures "ip_address" !in additionalProps ==>
              p["ip_address"] == (if Truthy(req.ip) then req.ip.value else req.remoteAddress)
    ensures "device" !in additionalProps ==> p["device"] == ParseUserAgent(req.userAgent).device
    ensures "browser" !in additionalProps ==> p["browser"] == ParseUserAgent(req.userAgent).browser
    ensures "platform" !in additionalProps ==> p["platform"] == ParseUserAgent(req.userAgent).platform
  {
    var agent := ParseUserAgent(req.userAgent);
    var geo := if "geo_location" in additionalProps && additionalProps["geo_location"] != "" then additionalProps["geo_location"] else "";
    var computed := map["geo_location" := geo,
                        "ip_address" := if Truthy(req.ip) then req.ip.value else req.remoteAddress,
                        "device" := agent.device,
                        "browser" := agent.browser,
                        "platform" := agent.platform];
    computed + additionalProps
  }

  /** The activity record `logActivity` appends. */
  function NewActivity(eventId: Id, eventType: string, description: string, req: Request,
                       entityType: Option<string>, entityId: Option<Id>, sessionId: Option<string>,
                       additionalProps: map<string, string>, now: int): Activity
  {
    Activity(eventId, eventType, description, entityType, entityId,
             SessionToken(req, sessionId), Props(req, additionalProps), now)
  }

  /** The user's activities, empty when the user has no log yet. */
  function ActivitiesOf(logs: map<Id, seq<Activity>>, user: Id): seq<Activity>
  {
    if user in logs then logs[user] else []
  }

  /** `logActivity` on the store of logs, keyed by user. */
  class ActivityStore {
    var logs: map<Id, seq<Activity>>

    constructor (initial: map<Id, seq<Activity>>)
      ensures logs == initial
    {
      logs := initial;
    }

    /** Appends exactly one activity to `userId`'s log, creating it when
        absent; `writeOk` is whether the upsert succeeds, and a failed one
        leaves every log as it was. */
    method Log(userId: Id, eventType: string, description: string, req: Request,
               entityType: Option<string>, entityId: Option<Id>, sessionId: Option<string>,
               additionalProps: map<string, string>, eventId: Id, now: int, writeOk: bool)
      modifies this
      ensures writeOk ==>
                logs == old(logs)[userId := ActivitiesOf(old(logs), userId)
                         + [NewActivity(eventId, eventType, description, req, entityType, entityId,
                                        sessionId, additionalProps, now)]]
      ensures !writeOk ==> logs == old(logs)
    {
      var activity := NewActivity(eventId, eventType, description, req, entityType, entityId,
                                  sessionId, additionalProps, now);
      if writeOk {
        logs := logs[userId := ActivitiesOf(logs, userId) + [activity]];
      }
    }
  }
}
