/** The older command line of main.go: its `-prefix` flag keeps the raw
    values, and its validation collects fewer checks, counts the missing
    destination URL among them, and never parses a URL once any error is
    found. Its request path (`matchPrefixes`, `rewrite`,
    `setWhoisHeaders`) is the same code as proxy.go and is modelled there. */
module LegacyMain {
  import opened Results
  import opened Strings
  import opened Http

  /** The `-prefix` flag value of main.go (`prefixes`): the raw values. */
  class PrefixFlag {
    var items: seq<string>

    constructor ()
      ensures items == []
    {
      items := [];
    }

    /** `prefixes.String`: the values separated by ", ". */
    function String(): (r: string)
      reads this
      ensures items == [] ==> r == ""
      ensures |items| == 1 ==> r == items[0]
    {
      Join(items, ", ")
    }

    /** `prefixes.Set`: never fails; adds `value` as it is, at the end. */
    method Set(value: string) returns (err: Option<string>)
      modifies this
      ensures err == None
      ensures items == old(items) + [value]
      ensures String() == if old(items) == [] then value else old(String()) + ", " + value
    {
      if items != [] {
        JoinSnoc(items, value, ", ");
      }
      items := items + [value];
      err := None;
    }
  }

  /** The fields of main.go's `TailnetSrv` that validation reads. */
  datatype TailnetSrv = TailnetSrv(
    downstreamTCPAddr: string,
    downstreamUnixAddr: string,
    funnel: bool,
    funnelOnly: bool,
    name: string,
    servePlaintext: bool)

  datatype ValidTailnetSrv = ValidTailnetSrv(srv: TailnetSrv, destURL: Url)

  /** The errors main.go's validation reports. */
  datatype ValidationError =
    | NameRequired
    | NoPlaintextOnFunnel
    | OnlyOneAddrType
    | FunnelRequired
    | NoDestURL
    | InvalidDestURL(arg: string, cause: string)
  {
    /** The error text; `%#v` quoting is shown without Go's escaping. A
        URL that does not parse keeps the parser's error at the end. */
    function Message(): string {
      match this
      case NameRequired => "tsnsrv needs a -name."
      case NoPlaintextOnFunnel => "can not serve plaintext on a funnel service."
      case OnlyOneAddrType => "can only proxy to one address at a time, pass either -downstreamUnixAddr or -downstreamTCPAddr"
      case FunnelRequired => "-funnel is required if -funnelOnly is set."
      case NoDestURL => "tsnsrv requires a destination URL."
      case InvalidDestURL(arg, cause) => "invalid destination URL \"" + arg + "\": " + cause
    }
  }

  /** A destination URL that does not parse is reported with the
      parser's error at the end of the text. */
  lemma ParseErrorKept(arg: string, cause: string)
    ensures var m := InvalidDestURL(arg, cause).Message();
            |cause| <= |m| && m[|m| - |cause|..] == cause
  {
    var p := "invalid destination URL \"" + arg + "\": ";
    assert InvalidDestURL(arg, cause).Message() == p + cause;
  }

  datatype Validation = Valid(valid: ValidTailnetSrv) | Invalid(errs: seq<ValidationError>)

  /** Whether settings `s` with `argCount` positional arguments have the
      problem that error `e` reports. */
  predicate Conflict(s: TailnetSrv, argCount: nat, e: ValidationError) {
    match e
    case NameRequired => s.name == ""
    case NoPlaintextOnFunnel => s.servePlaintext && s.funnel
    case OnlyOneAddrType => s.downstreamTCPAddr != "" && s.downstreamUnixAddr != ""
    case FunnelRequired => !s.funnel && s.funnelOnly
    case NoDestURL => argCount != 1
    case InvalidDestURL(_, _) => false
  }

  /** The checks made before any URL is parsed, in order. */
  const Checks: seq<ValidationError> :=
    [NameRequired, NoPlaintextOnFunnel, OnlyOneAddrType, FunnelRequired, NoDestURL]

  /** What one check contributes. */
  function Keep(s: TailnetSrv, argCount: nat, e: ValidationError): seq<ValidationError> {
    if Conflict(s, argCount, e) then [e] else []
  }

  /** The checks of `checks` that find a problem, in order. */
  function Reported(s: TailnetSrv, argCount: nat, checks: seq<ValidationError>): seq<ValidationError>
    decreases |checks|
  {
    if checks == [] then []
    else Reported(s, argCount, checks[..|checks| - 1]) + Keep(s, argCount, checks[|checks| - 1])
  }

  /** An error is reported exactly when it is among the checks and finds
      its problem. */
  lemma {:induction false} ReportedExactly(s: TailnetSrv, argCount: nat, checks: seq<ValidationError>, e: ValidationError)
    ensures e in Reported(s, argCount, checks) <==> e in checks && Conflict(s, argCount, e)
    decreases |checks|
  {
    if checks != [] {
      var n := |checks| - 1;
      ReportedExactly(s, argCount, checks[..n], e);
      assert checks == checks[..n] + [checks[n]];
    }
  }

  /** The errors found before parsing, in order. */
  function Errors(s: TailnetSrv, argCount: nat): seq<ValidationError> {
    Reported(s, argCount, Checks)
  }

  /** Errors written out check by check, as validation builds it. */
  lemma ErrorsUnfold(s: TailnetSrv, argCount: nat)
    ensures Errors(s, argCount) ==
      Keep(s, argCount, NameRequired) + Keep(s, argCount, NoPlaintextOnFunnel)
      + Keep(s, argCount, OnlyOneAddrType) + Keep(s, argCount, FunnelRequired) + Keep(s, argCount, NoDestURL)
  {
    var c4 := [NameRequired, NoPlaintextOnFunnel, OnlyOneAddrType, FunnelRequired];
    var c3 := [NameRequired, NoPlaintextOnFunnel, OnlyOneAddrType];
    var c2 := [NameRequired, NoPlaintextOnFunnel];
    var c1 := [NameRequired];
    assert Checks[..4] == c4 && c4[..3] == c3 && c3[..2] == c2 && c2[..1] == c1 && c1[..0] == [];
    assert Reported(s, argCount, c1) == Keep(s, argCount, NameRequired);
  }

  /** The checks of main.go's validation, one after another, each adding
      its error when it finds its problem. */
  method CheckAll(s: TailnetSrv, args: seq<string>) returns (errs: seq<ValidationError>)
    ensures errs == Errors(s, |args|)
    ensures forall e :: e in errs <==> e in Checks && Conflict(s, |args|, e)
  {
    errs := [];
    if s.name == "" {
      errs := errs + [NameRequired];
    }
    assert errs == Keep(s, |args|, NameRequired);
    if s.servePlaintext && s.funnel {
      errs := errs + [NoPlaintextOnFunnel];
    }
    assert errs == Keep(s, |args|, NameRequired) + Keep(s, |args|, NoPlaintextOnFunnel);
    if s.downstreamTCPAddr != "" && s.downstreamUnixAddr != "" {
      errs := errs + [OnlyOneAddrType];
    }
    assert errs == Keep(s, |args|, NameRequired) + Keep(s, |args|, NoPlaintextOnFunnel)
                   + Keep(s, |args|, OnlyOneAddrType);
    if !s.funnel && s.funnelOnly {
      errs := errs + [FunnelRequired];
    }
    assert errs == Keep(s, |args|, NameRequired) + Keep(s, |args|, NoPlaintextOnFunnel)
                   + Keep(s, |args|, OnlyOneAddrType) + Keep(s, |args|, FunnelRequired);
    if |args| != 1 {
      errs := errs + [NoDestURL];
    }
    ErrorsUnfold(s, |args|);
    forall e
      ensures e in errs <==> e in Checks && Conflict(s, |args|, e)
    {
      ReportedExactly(s, |args|, Checks, e);
    }
  }

  /** main.go's `TailnetSrv.validate`: any error found by the checks is
      returned with all the others, and then no URL is parsed at all; only
      with a clean flag set and exactly one argument is that argument
      parsed, and a parse failure is then the one error. `parse` stands
      for `url.Parse`. */
  method Validate(s: TailnetSrv, args: seq<string>, parse: string -> Result<Url, string>)
    returns (r: Validation)
    ensures Errors(s, |args|) != [] ==> r == Invalid(Errors(s, |args|))
    ensures r.Valid? <==> Errors(s, |args|) == [] && |args| == 1 && parse(args[0]).Ok?
    ensures r.Valid? ==> r.valid == ValidTailnetSrv(s, parse(args[0]).value)
    ensures Errors(s, |args|) == [] && |args| == 1 && parse(args[0]).Err? ==>
              r == Invalid([InvalidDestURL(args[0], parse(args[0]).error)])
  {
    var errs := CheckAll(s, args);
    if |errs| > 0 {
      return Invalid(errs);
    }
    assert NoDestURL in Checks;
    var destURL := parse(args[0]);
    if destURL.Err? {
      return Invalid([InvalidDestURL(args[0], destURL.error)]);
    }
    r := Valid(ValidTailnetSrv(s, destURL.value));
  }

  /** With no error from the checks there is exactly one argument, so the
      parse reads an argument that exists, and the only one. */
  lemma CleanMeansOneArgument(s: TailnetSrv, argCount: nat)
    ensures Errors(s, argCount) == [] ==> argCount == 1
  {
  }
}
