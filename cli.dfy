/** The command-line side of the service (cli.go): the allow-list entries
    with their provenance tag and how one entry admits a request, the
    three repeatable flag values (`-prefix`, `-upstreamHeader`, `-tag`)
    with their parsers, and the validation of an already-parsed flag set. */
module Cli {
  import opened Results
  import opened Strings
  import opened Http

  /** Where a request must have come from for an entry to admit it. */
  datatype PrefixMatch = MatchEither | MatchFunnelOnly | MatchTsnetOnly

  /** One allow-list entry. */
  datatype Prefix = Prefix(path: string, matchIf: PrefixMatch)

  /** The request's path and raw path with the entry's path taken off. */
  datatype StrippedPrefixes = StrippedPrefixes(path: string, rawPath: string)

  /** Whether a request that did (or did not) arrive through the funnel
      may be admitted by an entry tagged `m`. */
  predicate ProvenanceAllows(m: PrefixMatch, isFunnel: bool) {
    match m
    case MatchEither => true
    case MatchFunnelOnly => isFunnel
    case MatchTsnetOnly => !isFunnel
  }

  /** `prefix.matches`: does entry `pref` admit a request for `reqUrl`, and
      what is left of its path and raw path once the entry is trimmed off.
      Matching is on literal string prefixes, not on path segments. */
  function Matches(pref: Prefix, reqUrl: Url, isFunnel: bool): (r: (bool, StrippedPrefixes))
    ensures isFunnel && pref.matchIf == MatchTsnetOnly ==> !r.0
    ensures !isFunnel && pref.matchIf == MatchFunnelOnly ==> !r.0
    ensures pref.path == "" ==> !r.0
    ensures r.0 <==> ProvenanceAllows(pref.matchIf, isFunnel) && pref.path != ""
                     && HasPrefix(reqUrl.path, pref.path)
                     && (reqUrl.rawPath == "" || HasPrefix(reqUrl.rawPath, pref.path))
    ensures r.0 ==> pref.path + r.1.path == reqUrl.path && |r.1.path| < |reqUrl.path|
    ensures r.0 && reqUrl.rawPath != "" ==> pref.path + r.1.rawPath == reqUrl.rawPath
  {
    if isFunnel && pref.matchIf == MatchTsnetOnly then
      (false, StrippedPrefixes("", ""))
    else if !isFunnel && pref.matchIf == MatchFunnelOnly then
      (false, StrippedPrefixes("", ""))
    else
      var p := TrimPrefix(reqUrl.path, pref.path);
      var rp := TrimPrefix(reqUrl.rawPath, pref.path);
      (|p| < |reqUrl.path| && (reqUrl.rawPath == "" || |rp| < |reqUrl.rawPath|), StrippedPrefixes(p, rp))
  }

  /** How `prefixes.String` shows one entry. */
  function Render(pref: Prefix): string {
    match pref.matchIf
    case MatchEither => pref.path
    case MatchFunnelOnly => "funnel:" + pref.path
    case MatchTsnetOnly => "tailnet:" + pref.path
  }

  /** A shown entry is its path, after the tag when it has one: the text
      ends with the path, starts with the tag, and is the path itself
      exactly when the entry is untagged. */
  lemma RenderShape(pref: Prefix)
    ensures var s := Render(pref);
            && |pref.path| <= |s| && s[|s| - |pref.path|..] == pref.path
            && (pref.matchIf == MatchTsnetOnly ==> HasPrefix(s, "tailnet:"))
            && (pref.matchIf == MatchFunnelOnly ==> HasPrefix(s, "funnel:"))
            && (pref.matchIf == MatchEither <==> s == pref.path)
  {
  }

  /** The entry `prefixes.Set` builds from one `-prefix` value. Showing it
      again gives back the value it came from. */
  function ParsePrefix(value: string): (pref: Prefix)
    ensures Render(pref) == value
    ensures pref.matchIf == MatchTsnetOnly <==> HasPrefix(value, "tailnet:")
    ensures pref.matchIf == MatchFunnelOnly <==> HasPrefix(value, "funnel:")
    ensures |pref.path| < |value| <==> pref.matchIf != MatchEither
  {
    if HasPrefix(value, "tailnet:") then
      assert value[0] == 't' && !HasPrefix(value, "funnel:");
      Prefix(TrimPrefix(value, "tailnet:"), MatchTsnetOnly)
    else if HasPrefix(value, "funnel:") then
      Prefix(TrimPrefix(value, "funnel:"), MatchFunnelOnly)
    else
      Prefix(value, MatchEither)
  }

  /** Reading back a shown entry gives the same entry, unless an untagged
      entry's path itself looks like a tag. */
  lemma ParseRender(pref: Prefix)
    requires pref.matchIf == MatchEither ==>
               !HasPrefix(pref.path, "tailnet:") && !HasPrefix(pref.path, "funnel:")
    ensures ParsePrefix(Render(pref)) == pref
  {
  }

  /** The side condition of ParseRender is needed: an untagged entry whose
      path starts with `tailnet:` comes back tagged. */
  lemma UntaggedLookalikeDoesNotRoundTrip()
    ensures ParsePrefix(Render(Prefix("tailnet:/x", MatchEither))) == Prefix("/x", MatchTsnetOnly)
  {
  }

  /** The shown form of every entry, in order. */
  function RenderAll(ps: seq<Prefix>): (r: seq<string>)
    ensures |r| == |ps|
    ensures forall i | 0 <= i < |ps| :: r[i] == Render(ps[i])
  {
    if ps == [] then [] else [Render(ps[0])] + RenderAll(ps[1..])
  }

  /** `prefixes.String` after one more entry parsed from `value`. */
  lemma {:induction false} RenderAllSnoc(ps: seq<Prefix>, value: string)
    ensures Join(RenderAll(ps + [ParsePrefix(value)]), ", ")
            == if ps == [] then value else Join(RenderAll(ps), ", ") + ", " + value
  {
    var rs := RenderAll(ps + [ParsePrefix(value)]);
    assert rs == RenderAll(ps) + [value];
    if ps != [] {
      JoinSnoc(RenderAll(ps), value, ", ");
    }
  }

  /** The `-prefix` flag value (`prefixes`), appended to once per use of the flag. */
  class PrefixFlag {
    var items: seq<Prefix>

    constructor ()
      ensures items == []
    {
      items := [];
    }

    /** `prefixes.String`: the shown entries, separated by ", ". */
    function String(): (r: string)
      reads this
      ensures items == [] ==> r == ""
      ensures |items| == 1 ==> r == Render(items[0])
    {
      Join(RenderAll(items), ", ")
    }

    /** `prefixes.Set`: never fails; adds the parsed entry at the end. */
    method Set(value: string) returns (err: Option<FlagError>)
      modifies this
      ensures err == None
      ensures items == old(items) + [ParsePrefix(value)]
      ensures String() == if old(items) == [] then value else old(String()) + ", " + value
    {
      var pref := ParsePrefix(value);
      RenderAllSnoc(items, value);
      items := items + [pref];
      err := None;
    }
  }

  /** Errors of the flag-value parsers. */
  datatype FlagError =
    | HeaderFormat(value: string)  // wraps errHeaderFormat
    | TagFormat                    // errTagFormat

  /** The `-upstreamHeader` flag value (`headers`). */
  class HeaderFlag {
    var values: Header

    constructor ()
      ensures values == map[]
    {
      values := map[];
    }

    /** `headers.Set`: splits at the first ": " and adds the rest as one
        more value of the name before it; without ": " nothing changes. */
    method Set(value: string) returns (err: Option<FlagError>)
      modifies this
      ensures err.Some? <==> !Contains(value, ": ")
      ensures err.Some? ==> err.value == HeaderFormat(value) && values == old(values)
      ensures err.None? ==>
                var c := Cut(value, ": ");
                && c.before + ": " + c.after == value
                && !Contains(c.before, ": ")
                && values == AddHeader(old(values), c.before, c.after)
    {
      var c := Cut(value, ": ");
      if !c.found {
        return Some(HeaderFormat(value));
      }
      values := AddHeader(values, c.before, c.after);
      err := None;
    }
  }

  /** The `-tag` flag value (`tags`). */
  class TagFlag {
    var tags: seq<string>

    constructor ()
      ensures tags == []
    {
      tags := [];
    }

    /** `tags.String`: the tags separated by ", ". */
    function String(): (r: string)
      reads this
      ensures tags == [] ==> r == ""
      ensures |tags| == 1 ==> r == tags[0]
    {
      Join(tags, ", ")
    }

    /** `tags.Set`: only values starting with "tag:" are kept, at the end. */
    method Set(value: string) returns (err: Option<FlagError>)
      modifies this
      ensures err.Some? <==> !HasPrefix(value, "tag:")
      ensures err.Some? ==> err.value == TagFormat && tags == old(tags)
      ensures err.None? ==> tags == old(tags) + [value]
      ensures err.None? ==> String() == if old(tags) == [] then value else old(String()) + ", " + value
      ensures err.Some? ==> String() == old(String())
    {
      if !HasPrefix(value, "tag:") {
        return Some(TagFormat);
      }
      if tags != [] {
        JoinSnoc(tags, value, ", ");
      }
      tags := tags + [value];
      err := None;
    }
  }

  /** The fields of `TailnetSrv` that validation reads. */
  datatype TailnetSrv = TailnetSrv(
    upstreamTCPAddr: string,
    upstreamUnixAddr: string,
    funnel: bool,
    funnelOnly: bool,
    certificateFile: string,
    keyFile: string,
    name: string,
    servePlaintext: bool)

  /** `ValidTailnetSrv`: the settings together with the destination URL. */
  datatype ValidTailnetSrv = ValidTailnetSrv(srv: TailnetSrv, destURL: Url)

  /** The errors validation reports, in the order it checks for them. */
  datatype ValidationError =
    | NameRequired
    | NoPlaintextOnFunnel
    | BothCertificateFileKeyFile
    | NoPlaintextWithCustomCert
    | OnlyOneAddrType
    | FunnelRequired
    | NoDestURL
    | InvalidDestURL(arg: string, cause: string)
  {
    /** The error text; `%#v` quoting is shown without Go's escaping. A
        URL that does not parse keeps the parser's error at the end. */
    function Message(): string {
      match this
      case NameRequired => "tsnsrv needs a -name"
      case NoPlaintextOnFunnel => "can not serve plaintext on a funnel service"
      case BothCertificateFileKeyFile => "when providing either a certificate or key file, the other must be provided"
      case NoPlaintextWithCustomCert => "can not serve plaintext when using custom certificate and key"
      case OnlyOneAddrType => "can only proxy to one address at a time, pass either -upstreamUnixAddr or -upstreamTCPAddr"
      case FunnelRequired => "-funnel is required if -funnelOnly is set"
      case NoDestURL => "tsnsrv requires a destination URL"
      case InvalidDestURL(arg, cause) => "invalid destination URL \"" + arg + "\": " + cause
    }

    /** Position of the check that reports this error. */
    function Rank(): nat {
      match this
      case NameRequired => 0
      case NoPlaintextOnFunnel => 1
      case BothCertificateFileKeyFile => 2
      case NoPlaintextWithCustomCert => 3
      case OnlyOneAddrType => 4
      case FunnelRequired => 5
      case NoDestURL => 6
      case InvalidDestURL(_, _) => 6
    }
  }

  /** A destination URL that does not parse is reported with the
      parser's error at the end of the text. */
  lemma ParseErrorKept(arg: string, cause: string)
    ensures var m := InvalidDestURL(arg, cause).Message();
            |cause| <= |m| && m[|m| - |cause|..] == cause
  {
    var p := "invalid destination URL \"" + arg + "\": ";
    assert InvalidDestURL(arg, cause).Message() == p + cause;
  }

  /** The outcome of validation: the joined errors, or the valid settings. */
  datatype Validation = Valid(valid: ValidTailnetSrv) | Invalid(errs: seq<ValidationError>)

  /** Whether the settings have the conflict that error `e` reports. */
  predicate Conflict(s: TailnetSrv, e: ValidationError) {
    match e
    case NameRequired => s.name == ""
    case NoPlaintextOnFunnel => s.servePlaintext && s.funnel
    case BothCertificateFileKeyFile => (s.certificateFile == "") != (s.keyFile == "")
    case NoPlaintextWithCustomCert => s.servePlaintext && s.certificateFile != "" && s.keyFile != ""
    case OnlyOneAddrType => s.upstreamTCPAddr != "" && s.upstreamUnixAddr != ""
    case FunnelRequired => !s.funnel && s.funnelOnly
    case NoDestURL => false
    case InvalidDestURL(_, _) => false
  }

  /** The flag checks, in the order validation makes them. */
  const FlagChecks: seq<ValidationError> :=
    [NameRequired, NoPlaintextOnFunnel, BothCertificateFileKeyFile,
     NoPlaintextWithCustomCert, OnlyOneAddrType, FunnelRequired]

  /** What one check contributes: `e` when the settings have its conflict. */
  function Keep(s: TailnetSrv, e: ValidationError): seq<ValidationError> {
    if Conflict(s, e) then [e] else []
  }

  /** The checks of `checks` whose conflict the settings have, in order. */
  function Reported(s: TailnetSrv, checks: seq<ValidationError>): seq<ValidationError>
    decreases |checks|
  {
    if checks == [] then []
    else Reported(s, checks[..|checks| - 1]) + Keep(s, checks[|checks| - 1])
  }

  /** An error is reported exactly when it is among the checks and the
      settings have its conflict; no check reports twice. */
  lemma {:induction false} ReportedExactly(s: TailnetSrv, checks: seq<ValidationError>, e: ValidationError)
    ensures e in Reported(s, checks) <==> e in checks && Conflict(s, e)
    ensures |Reported(s, checks)| <= |checks|
    decreases |checks|
  {
    if checks != [] {
      var n := |checks| - 1;
      ReportedExactly(s, checks[..n], e);
      assert checks == checks[..n] + [checks[n]];
    }
  }

  /** Errors listed in strictly increasing check position. */
  predicate InCheckOrder(es: seq<ValidationError>) {
    forall i, j | 0 <= i < j < |es| :: es[i].Rank() < es[j].Rank()
  }

  /** Checks made in order report their errors in that order. */
  lemma {:induction false} ReportedInOrder(s: TailnetSrv, checks: seq<ValidationError>)
    requires InCheckOrder(checks)
    ensures InCheckOrder(Reported(s, checks))
    decreases |checks|
  {
    if checks != [] {
      var n := |checks| - 1;
      var prev := Reported(s, checks[..n]);
      ReportedInOrder(s, checks[..n]);
      forall i | 0 <= i < |prev|
        ensures prev[i].Rank() < checks[n].Rank()
      {
        ReportedExactly(s, checks[..n], prev[i]);
        var k :| 0 <= k < n && checks[..n][k] == prev[i];
        assert checks[k] == prev[i];
      }
    }
  }

  /** The flag errors validation reports, in check order. */
  function FlagErrors(s: TailnetSrv): seq<ValidationError> {
    Reported(s, FlagChecks)
  }

  /** FlagErrors written out check by check, as validation builds it. */
  lemma FlagErrorsUnfold(s: TailnetSrv)
    ensures FlagErrors(s) ==
      Keep(s, NameRequired) + Keep(s, NoPlaintextOnFunnel) + Keep(s, BothCertificateFileKeyFile)
      + Keep(s, NoPlaintextWithCustomCert) + Keep(s, OnlyOneAddrType) + Keep(s, FunnelRequired)
  {
    var c6 := FlagChecks;
    var c5 := [NameRequired, NoPlaintextOnFunnel, BothCertificateFileKeyFile, NoPlaintextWithCustomCert, OnlyOneAddrType];
    var c4 := [NameRequired, NoPlaintextOnFunnel, BothCertificateFileKeyFile, NoPlaintextWithCustomCert];
    var c3 := [NameRequired, NoPlaintextOnFunnel, BothCertificateFileKeyFile];
    var c2 := [NameRequired, NoPlaintextOnFunnel];
    var c1 := [NameRequired];
    assert c6[..5] == c5 && c5[..4] == c4 && c4[..3] == c3 && c3[..2] == c2 && c2[..1] == c1 && c1[..0] == [];
    assert Reported(s, c1) == Keep(s, NameRequired);
  }

  /** The flag checks are listed in check order, all before the
      argument check. */
  lemma FlagChecksInOrder()
    ensures InCheckOrder(FlagChecks)
    ensures forall x | x in FlagChecks :: x.Rank() < NoDestURL.Rank()
  {
  }

  /** Every list validation returns is in check order: the flag errors
      in the order the checks are made, then the argument error last. */
  lemma ValidationErrorsInOrder(s: TailnetSrv, e: ValidationError)
    requires e.NoDestURL? || e.InvalidDestURL?
    ensures InCheckOrder(FlagErrors(s))
    ensures InCheckOrder(FlagErrors(s) + [e])
  {
    FlagChecksInOrder();
    ReportedInOrder(s, FlagChecks);
    forall x | x in FlagErrors(s)
      ensures x.Rank() < e.Rank()
    {
      ReportedExactly(s, FlagChecks, x);
    }
  }

  /** The first half of `TailnetSrv.validate`: each flag check in turn,
      collecting every conflict found rather than stopping at the first. */
  method CheckFlags(s: TailnetSrv) returns (errs: seq<ValidationError>)
    ensures errs == FlagErrors(s)
    ensures forall e :: e in errs <==> e in FlagChecks && Conflict(s, e)
  {
    errs := [];
    if s.name == "" {
      errs := errs + [NameRequired];
    }
    assert errs == Keep(s, NameRequired);
    if s.servePlaintext && s.funnel {
      errs := errs + [NoPlaintextOnFunnel];
    }
    assert errs == Keep(s, NameRequired) + Keep(s, NoPlaintextOnFunnel);
    if (s.certificateFile != "" && s.keyFile == "") || (s.certificateFile == "" && s.keyFile != "") {
      errs := errs + [BothCertificateFileKeyFile];
    }
    assert errs == Keep(s, NameRequired) + Keep(s, NoPlaintextOnFunnel) + Keep(s, BothCertificateFileKeyFile);
    if s.servePlaintext && s.certificateFile != "" && s.keyFile != "" {
      errs := errs + [NoPlaintextWithCustomCert];
    }
    assert errs == Keep(s, NameRequired) + Keep(s, NoPlaintextOnFunnel) + Keep(s, BothCertificateFileKeyFile)
                   + Keep(s, NoPlaintextWithCustomCert);
    if s.upstreamTCPAddr != "" && s.upstreamUnixAddr != "" {
      errs := errs + [OnlyOneAddrType];
    }
    assert errs == Keep(s, NameRequired) + Keep(s, NoPlaintextOnFunnel) + Keep(s, BothCertificateFileKeyFile)
                   + Keep(s, NoPlaintextWithCustomCert) + Keep(s, OnlyOneAddrType);
    if !s.funnel && s.funnelOnly {
      errs := errs + [FunnelRequired];
    }
    FlagErrorsUnfold(s);
    forall e
      ensures e in errs <==> e in FlagChecks && Conflict(s, e)
    {
      ReportedExactly(s, FlagChecks, e);
    }
  }

  /** `TailnetSrv.validate`: every flag conflict is collected before it
      returns; a wrong number of positional arguments adds NoDestURL
      without looking at any argument; a URL that does not parse adds one
      more error. `parse` stands for `url.Parse`. */
  method Validate(s: TailnetSrv, args: seq<string>, parse: string -> Result<Url, string>)
    returns (r: Validation)
    ensures r.Valid? <==> FlagErrors(s) == [] && |args| == 1 && parse(args[0]).Ok?
    ensures r.Valid? ==> r.valid == ValidTailnetSrv(s, parse(args[0]).value)
    ensures |args| != 1 ==> r == Invalid(FlagErrors(s) + [NoDestURL])
    ensures |args| == 1 && parse(args[0]).Err? ==>
              r == Invalid(FlagErrors(s) + [InvalidDestURL(args[0], parse(args[0]).error)])
    ensures |args| == 1 && parse(args[0]).Ok? && FlagErrors(s) != [] ==> r == Invalid(FlagErrors(s))
  {
    var errs := CheckFlags(s);
    if |args| != 1 {
      return Invalid(errs + [NoDestURL]);
    }
    var destURL := parse(args[0]);
    if destURL.Err? {
      errs := errs + [InvalidDestURL(args[0], destURL.error)];
    }
    if |errs| > 0 {
      return Invalid(errs);
    }
    r := Valid(ValidTailnetSrv(s, destURL.value));
  }
}
