/** The rule-based `LogParser`: ordered keyword tables over the lowercased
    line decide the service, error type, error subtype and severity, and
    `parse_line` turns one raw line into a record, skips it, or fails in
    `strptime`. */
module ExClassifier {
  import opened Strings
  import opened LogTypes
  import opened Timestamps
  import opened KeywordTables

  // ---------------------------------------------------------------------------
  // The four tables of the parser, in the order the source checks them
  // ---------------------------------------------------------------------------

  const SERVICE_RULES: seq<Rule<Service>> := [
    Rule(["auth", "login", "token"], Auth),
    Rule(["gateway", "nginx", "proxy"], ApiGateway),
    Rule(["user", "profile", "account"], User),
    Rule(["payment", "transaction", "gateway"], Payment),
    Rule(["notify", "email", "sms", "webhook"], Notification),
    Rule(["stock", "inventory", "item", "warehouse"], Inventory)
  ]

  const ERROR_TYPE_RULES: seq<Rule<ErrorType>> := [
    Rule(["timeout"], TimeoutError),
    Rule(["exception", "traceback"], ApplicationException),
    Rule(["connection refused", "network"], NetworkError),
    Rule(["oom", "memory"], ResourceExhaustion),
    Rule(["db", "sql"], DatabaseError),
    Rule(["unauthorized", "forbidden"], SecurityAlert),
    Rule(["deployment", "rollout"], DeploymentIssue)
  ]

  const SUBTYPE_RULES: seq<Rule<ErrorSubtype>> := [
    Rule(["nullpointer"], NullPointer),
    Rule(["connection refused"], ConnectionRefused),
    Rule(["timeout"], TimeoutSub),
    Rule(["oomkilled", "out of memory"], OomKilled),
    Rule(["auth fail", "invalid token"], AuthFailure),
    Rule(["rate limit"], RateLimitHit),
    Rule(["ssl handshake"], SslHandshakeError),
    Rule(["permission denied"], PermissionDenied),
    Rule(["db conn"], DbConnFailed),
    Rule(["config"], ConfigMismatch),
    Rule(["service unavailable"], ServiceUnavailable),
    Rule(["traceback"], StackTrace)
  ]

  const SEVERITY_RULES: seq<Rule<SeverityLevel>> := [
    Rule(["critical", "panic"], High),
    Rule(["warn"], Medium),
    Rule(["info"], Low),
    Rule(["error"], High)
  ]

  // ---------------------------------------------------------------------------
  // The classifiers
  // ---------------------------------------------------------------------------

  /** `classify_service`: the first service, in the table's order, one of
      whose keywords occurs in the lowercased line; `None` otherwise. */
  function ClassifyService(line: string): Option<Service> {
    var i := FirstFiring(Lower(line), SERVICE_RULES, 0);
    if i < |SERVICE_RULES| then Some(SERVICE_RULES[i].value) else None
  }

  function ClassifyErrorType(line: string): ErrorType {
    FirstMatch(Lower(line), ERROR_TYPE_RULES, UnknownError)
  }

  function ClassifyErrorSubtype(line: string): ErrorSubtype {
    FirstMatch(Lower(line), SUBTYPE_RULES, UnknownSub)
  }

  function DetermineSeverity(line: string): SeverityLevel {
    FirstMatch(Lower(line), SEVERITY_RULES, Medium)
  }

  /** `classify_service` as the source's loop over the keyword dictionary. */
  lemma ClassifyServiceOrder(line: string)
    ensures var low := Lower(line);
      ClassifyService(line) ==
        if ContainsAny(low, ["auth", "login", "token"]) then Some(Auth)
        else if ContainsAny(low, ["gateway", "nginx", "proxy"]) then Some(ApiGateway)
        else if ContainsAny(low, ["user", "profile", "account"]) then Some(User)
        else if ContainsAny(low, ["payment", "transaction", "gateway"]) then Some(Payment)
        else if ContainsAny(low, ["notify", "email", "sms", "webhook"]) then Some(Notification)
        else if ContainsAny(low, ["stock", "inventory", "item", "warehouse"]) then Some(Inventory)
        else None
  {
    ClassifyServiceChain(line);
  }

  /** The chain of `ClassifyServiceOrder` with the rows left unnamed. */
  lemma ClassifyServiceChain(line: string)
    ensures var low, R := Lower(line), SERVICE_RULES;
      ClassifyService(line) ==
        if Fires(low, R[0]) then Some(Auth)
        else if Fires(low, R[1]) then Some(ApiGateway)
        else if Fires(low, R[2]) then Some(User)
        else if Fires(low, R[3]) then Some(Payment)
        else if Fires(low, R[4]) then Some(Notification)
        else if Fires(low, R[5]) then Some(Inventory)
        else None
  {
    var low, R := Lower(line), SERVICE_RULES;
    assert FirstFiring(low, R, 5) == if Fires(low, R[5]) then 5 else 6;
    assert FirstFiring(low, R, 4) == if Fires(low, R[4]) then 4 else FirstFiring(low, R, 5);
    assert FirstFiring(low, R, 3) == if Fires(low, R[3]) then 3 else FirstFiring(low, R, 4);
    assert FirstFiring(low, R, 2) == if Fires(low, R[2]) then 2 else FirstFiring(low, R, 3);
    assert FirstFiring(low, R, 1) == if Fires(low, R[1]) then 1 else FirstFiring(low, R, 2);
  }

  /** "gateway" is listed for both the gateway and the payment service, and
      the gateway row comes first: a line mentioning a gateway is never
      classified as a payment. */
  lemma GatewayNeverPayment(line: string)
    requires Contains(Lower(line), "gateway")
    ensures ClassifyService(line) == Some(Auth) || ClassifyService(line) == Some(ApiGateway)
  {
    var low, R := Lower(line), SERVICE_RULES;
    assert R[1].keywords[0] == "gateway";
    assert Fires(low, R[1]);
  }

  /** `classify_error_type` as the source's chain of tests. */
  lemma ClassifyErrorTypeOrder(line: string)
    ensures var low := Lower(line);
      ClassifyErrorType(line) ==
        if Contains(low, "timeout") then TimeoutError
        else if Contains(low, "exception") || Contains(low, "traceback") then ApplicationException
        else if Contains(low, "connection refused") || Contains(low, "network") then NetworkError
        else if Contains(low, "oom") || Contains(low, "memory") then ResourceExhaustion
        else if Contains(low, "db") || Contains(low, "sql") then DatabaseError
        else if Contains(low, "unauthorized") || Contains(low, "forbidden") then SecurityAlert
        else if Contains(low, "deployment") || Contains(low, "rollout") then DeploymentIssue
        else UnknownError
  {
    var low, R := Lower(line), ERROR_TYPE_RULES;
    FiresOne(low, R[0]);
    FiresTwo(low, R[1]);
    FiresTwo(low, R[2]);
    FiresTwo(low, R[3]);
    FiresTwo(low, R[4]);
    FiresTwo(low, R[5]);
    FiresTwo(low, R[6]);
    FirstMatchStep(low, R, 0, UnknownError);
    FirstMatchStep(low, R, 1, UnknownError);
    FirstMatchStep(low, R, 2, UnknownError);
    FirstMatchStep(low, R, 3, UnknownError);
    FirstMatchStep(low, R, 4, UnknownError);
    FirstMatchStep(low, R, 5, UnknownError);
    FirstMatchStep(low, R, 6, UnknownError);
  }

  /** `classify_error_subtype` as the source's chain of tests, from
      "nullpointer" down to "traceback". */
  lemma ClassifyErrorSubtypeOrder(line: string)
    ensures var low := Lower(line);
      ClassifyErrorSubtype(line) ==
        if Contains(low, "nullpointer") then NullPointer
        else if Contains(low, "connection refused") then ConnectionRefused
        else if Contains(low, "timeout") then TimeoutSub
        else if Contains(low, "oomkilled") || Contains(low, "out of memory") then OomKilled
        else if Contains(low, "auth fail") || Contains(low, "invalid token") then AuthFailure
        else if Contains(low, "rate limit") then RateLimitHit
        else if Contains(low, "ssl handshake") then SslHandshakeError
        else if Contains(low, "permission denied") then PermissionDenied
        else if Contains(low, "db conn") then DbConnFailed
        else if Contains(low, "config") then ConfigMismatch
        else if Contains(low, "service unavailable") then ServiceUnavailable
        else if Contains(low, "traceback") then StackTrace
        else UnknownSub
  {
    var low, R := Lower(line), SUBTYPE_RULES;
    FiresOne(low, R[0]);
    FiresOne(low, R[1]);
    FiresOne(low, R[2]);
    FiresTwo(low, R[3]);
    FiresTwo(low, R[4]);
    FiresOne(low, R[5]);
    FiresOne(low, R[6]);
    FiresOne(low, R[7]);
    FiresOne(low, R[8]);
    FiresOne(low, R[9]);
    FiresOne(low, R[10]);
    FiresOne(low, R[11]);
    FirstMatchStep(low, R, 0, UnknownSub);
    FirstMatchStep(low, R, 1, UnknownSub);
    FirstMatchStep(low, R, 2, UnknownSub);
    FirstMatchStep(low, R, 3, UnknownSub);
    FirstMatchStep(low, R, 4, UnknownSub);
    FirstMatchStep(low, R, 5, UnknownSub);
    FirstMatchStep(low, R, 6, UnknownSub);
    FirstMatchStep(low, R, 7, UnknownSub);
    FirstMatchStep(low, R, 8, UnknownSub);
    FirstMatchStep(low, R, 9, UnknownSub);
    FirstMatchStep(low, R, 10, UnknownSub);
    FirstMatchStep(low, R, 11, UnknownSub);
  }

  /** `determine_severity` as the source's chain of tests. */
  lemma DetermineSeverityOrder(line: string)
    ensures var low := Lower(line);
      DetermineSeverity(line) ==
        if Contains(low, "critical") || Contains(low, "panic") then High
        else if Contains(low, "warn") then Medium
        else if Contains(low, "info") then Low
        else if Contains(low, "error") then High
        else Medium
  {
    var low, R := Lower(line), SEVERITY_RULES;
    FiresTwo(low, R[0]);
    FiresOne(low, R[1]);
    FiresOne(low, R[2]);
    FiresOne(low, R[3]);
    FirstMatchStep(low, R, 0, Medium);
    FirstMatchStep(low, R, 1, Medium);
    FirstMatchStep(low, R, 2, Medium);
    FirstMatchStep(low, R, 3, Medium);
  }

  /** Each classifier sees only the lowercased line. */
  lemma ClassifiersIgnoreCase(line: string)
    ensures ClassifyService(Lower(line)) == ClassifyService(line)
    ensures ClassifyErrorType(Lower(line)) == ClassifyErrorType(line)
    ensures ClassifyErrorSubtype(Lower(line)) == ClassifyErrorSubtype(line)
    ensures DetermineSeverity(Lower(line)) == DetermineSeverity(line)
  {
    LowerIdempotent(line);
  }

  // ---------------------------------------------------------------------------
  // `parse_line`
  // ---------------------------------------------------------------------------

  /** The dictionary `parse_line` returns, with the enum values as strings. */
  datatype ParsedRecord = ParsedRecord(
    timestamp: Option<string>, service: string, errorType: string,
    errorSubtype: string, severity: string, raw: string)

  /** `None` from `parse_line`, the `ValueError` of `strptime`, or a record. */
  datatype ParseOutcome = Skipped | Raised | Parsed(record: ParsedRecord)

  /** The stripped line declares a timestamp that `strptime` refuses. */
  predicate StampRaises(s: string) {
    var m := SearchStamp(s);
    m.Some? && Strptime(m.value).None?
  }

  function ParseLine(line: string): ParseOutcome {
    var s := Strip(line);
    if s == [] || Contains(Lower(s), "info") then Skipped
    else
      var m := SearchStamp(s);
      if StampRaises(s) then Raised
      else
        var stamp := if m.Some? then Some(IsoFormat(Strptime(m.value).value)) else None;
        match ClassifyService(s)
        case None => Skipped
        case Some(svc) =>
          Parsed(ParsedRecord(stamp, ServiceValue(svc), ErrorTypeValue(ClassifyErrorType(s)),
                              SubtypeValue(ClassifyErrorSubtype(s)),
                              SeverityValue(DetermineSeverity(s)), s))
  }

  /** When `parse_line` returns nothing, fails, or returns a record. */
  lemma ParseLineOutcomes(line: string)
    ensures var s := Strip(line);
      && (ParseLine(line).Skipped? <==>
            s == [] || Contains(Lower(s), "info") || (!StampRaises(s) && ClassifyService(s).None?))
      && (ParseLine(line).Raised? <==> s != [] && !Contains(Lower(s), "info") && StampRaises(s))
  {
    var s := Strip(line);
    if SearchStamp(s).Some? { SearchStampShape(s); }
  }

  /** A match with a `T` separator or a `,<digits>` tail makes `parse_line`
      fail, even on a line with no known service. */
  lemma ParseLineRaisesOnIsoStamp(line: string)
    requires var s := Strip(line); s != [] && !Contains(Lower(s), "info")
    requires var m := SearchStamp(Strip(line)); m.Some? && (m.value[10] == 'T' || |m.value| > 19)
    ensures ParseLine(line) == Raised
  {
    SearchStampShape(Strip(line));
  }

  /** What a returned record holds: the stripped line as `raw`, the service
      and classifications of that line, a severity that is never `Low`
      (every line mentioning "info" was skipped first), and the timestamp as
      the matched text with `T` between date and time. */
  lemma ParsedRecordFields(line: string)
    requires ParseLine(line).Parsed?
    ensures var r, s := ParseLine(line).record, Strip(line);
      && r.raw == s
      && ClassifyService(s).Some? && r.service == ServiceValue(ClassifyService(s).value)
      && r.errorType == ErrorTypeValue(ClassifyErrorType(s))
      && r.errorSubtype == SubtypeValue(ClassifyErrorSubtype(s))
      && r.severity != "Low"
      && (SearchStamp(s).None? ==> r.timestamp.None?)
      && (SearchStamp(s).Some? ==> var t := SearchStamp(s).value;
            r.timestamp == Some(t[..10] + "T" + t[11..]))
  {
    var s := Strip(line);
    DetermineSeverityOrder(s);
    if SearchStamp(s).Some? {
      SearchStampShape(s);
      IsoRoundTrip(SearchStamp(s).value);
    }
  }
}
