/** The request path of the reverse proxy (proxy.go; main.go carries the
    same three functions): the allow-list gate in front of the proxy, the
    rewrite of each outgoing request, and the identity headers it carries. */
module Proxy {
  import opened Results
  import opened Strings
  import opened Http
  import Cli

  // ---------------------------------------------------------------------
  // matchPrefixes

  /** The prefix test of `matchPrefixes`: trimming `prefix` shortens the
      path, and the raw path too when there is one. */
  predicate Admits(prefix: string, u: Url) {
    var p := TrimPrefix(u.path, prefix);
    var rp := TrimPrefix(u.rawPath, prefix);
    |p| < |u.path| && (u.rawPath == "" || |rp| < |u.rawPath|)
  }

  /** The test admits exactly when `prefix` is a non-empty literal prefix
      of the path (and of the raw path, if set); it is the test an
      untagged allow-list entry makes, whatever the request's provenance. */
  lemma AdmitsMeans(prefix: string, u: Url, isFunnel: bool)
    ensures Admits(prefix, u) <==> prefix != "" && HasPrefix(u.path, prefix)
                                   && (u.rawPath == "" || HasPrefix(u.rawPath, prefix))
    ensures Admits(prefix, u) == Cli.Matches(Cli.Prefix(prefix, Cli.MatchEither), u, isFunnel).0
  {
  }

  /** Index of the first prefix that admits `u`, or `|prefixes|` if none does. */
  function FirstAdmitting(prefixes: seq<string>, u: Url): (i: nat)
    ensures i <= |prefixes|
    ensures i < |prefixes| ==> Admits(prefixes[i], u)
    ensures forall j | 0 <= j < i :: !Admits(prefixes[j], u)
    decreases |prefixes|
  {
    if prefixes == [] then 0
    else if Admits(prefixes[0], u) then 0
    else 1 + FirstAdmitting(prefixes[1..], u)
  }

  /** The copy of the request handed on once `prefix` admitted it: with
      `strip`, its URL loses the prefix from both path and raw path;
      otherwise it is the request itself. Nothing else differs. */
  function Forwarded(r: Request, prefix: string, strip: bool): (f: Request)
    ensures !strip ==> f == r
    ensures f == r.(url := f.url)
    ensures f.url == r.url.(path := f.url.path, rawPath := f.url.rawPath)
    ensures strip && Admits(prefix, r.url) ==>
              prefix + f.url.path == r.url.path
              && (r.url.rawPath != "" ==> prefix + f.url.rawPath == r.url.rawPath)
  {
    if strip then
      r.(url := r.url.(path := TrimPrefix(r.url.path, prefix), rawPath := TrimPrefix(r.url.rawPath, prefix)))
    else r
  }

  /** What the gate does with a request: hand a request on, or answer 404. */
  datatype Dispatch = Forward(req: Request) | NotFound

  /** `matchPrefixes`, for one request: with no prefixes every request
      passes untouched; otherwise the first admitting prefix in list order
      decides, and no admitting prefix means 404. The caller's request is
      a value, so the handed-on copy never changes it. */
  method MatchPrefixes(prefixes: seq<string>, strip: bool, r: Request) returns (d: Dispatch)
    ensures prefixes == [] ==> d == Forward(r)
    ensures d.NotFound? <==> prefixes != [] && forall i | 0 <= i < |prefixes| :: !Admits(prefixes[i], r.url)
    ensures d.Forward? && prefixes != [] ==>
              d.req == Forwarded(r, prefixes[FirstAdmitting(prefixes, r.url)], strip)
  {
    if |prefixes| == 0 {
      return Forward(r);
    }
    var i := 0;
    while i < |prefixes|
      invariant 0 <= i <= |prefixes|
      invariant forall j | 0 <= j < i :: !Admits(prefixes[j], r.url)
    {
      var prefix := prefixes[i];
      var p := TrimPrefix(r.url.path, prefix);
      var rp := TrimPrefix(r.url.rawPath, prefix);
      if |p| < |r.url.path| && (r.url.rawPath == "" || |rp| < |r.url.rawPath|) {
        var r2 := r;
        if strip {
          r2 := r2.(url := r.url.(path := p, rawPath := rp));
        }
        return Forward(r2);
      }
      i := i + 1;
    }
    return NotFound;
  }

  // ---------------------------------------------------------------------
  // setWhoisHeaders

  /** The identity record of the requesting user and node, as `WhoIs`
      returns it; the user and node IDs are kept in their rendered form. */
  datatype WhoIs = WhoIs(
    userID: string,
    loginName: string,
    displayName: string,
    profilePicURL: string,
    caps: seq<string>,
    nodeID: string,
    nodeName: string,
    nodeCaps: seq<string>,
    nodeTags: seq<string>)

  const IdentityPrefix := "X-Tailscale-"

  /** A header name in the identity family. */
  predicate IsIdentityKey(k: string) {
    HasPrefix(k, IdentityPrefix)
  }

  // The identity names as `Header.Set` stores them, in canonical form;
  // where that differs from the name passed to `Set`, the comment gives it.
  const UserKey := IdentityPrefix + IdentitySuffixes[0]  // X-Tailscale-User
  const LoginKey := IdentityPrefix + IdentitySuffixes[1]  // Set("X-Tailscale-User-LoginName")
  const LocalpartKey := IdentityPrefix + IdentitySuffixes[2]  // Set("X-Tailscale-User-LoginName-Localpart")
  const DomainKey := IdentityPrefix + IdentitySuffixes[3]  // Set("X-Tailscale-User-LoginName-Domain")
  const DisplayNameKey := IdentityPrefix + IdentitySuffixes[4]  // Set("X-Tailscale-User-DisplayName")
  const ProfilePicKey := IdentityPrefix + IdentitySuffixes[5]  // Set("X-Tailscale-User-ProfilePicURL")
  const CapsKey := IdentityPrefix + IdentitySuffixes[6]  // X-Tailscale-Caps
  const NodeKey := IdentityPrefix + IdentitySuffixes[7]  // X-Tailscale-Node
  const NodeNameKey := IdentityPrefix + IdentitySuffixes[8]  // X-Tailscale-Node-Name
  const NodeCapsKey := IdentityPrefix + IdentitySuffixes[9]  // X-Tailscale-Node-Caps
  const NodeTagsKey := IdentityPrefix + IdentitySuffixes[10]  // X-Tailscale-Node-Tags

  /** `h` without the identity family. */
  function WithoutIdentity(h: Header): (r: Header)
    ensures forall k :: k in r <==> k in h && !IsIdentityKey(k)
    ensures forall k | k in r :: r[k] == h[k]
  {
    map k | k in h && !IsIdentityKey(k) :: h[k]
  }

  /** One `Set` of the identity step: the name after the identity prefix
      and the value it gets, or None where the source skips the `Set`. */
  datatype Update = Update(suffix: string, value: Option<string>)

  /** The names the identity step sets, after the identity prefix, in
      the order `setWhoisHeaders` sets them and in the canonical form the
      header map stores them under. */
  const IdentitySuffixes: seq<string> :=
    ["User", "User-Loginname", "User-Loginname-Localpart", "User-Loginname-Domain",
     "User-Displayname", "User-Profilepicurl", "Caps",
     "Node", "Node-Name", "Node-Caps", "Node-Tags"]

  /** No name is set twice. */
  lemma IdentitySuffixesDistinct()
    ensures forall i, j | 0 <= i < j < |IdentitySuffixes| :: IdentitySuffixes[i] != IdentitySuffixes[j]
  {
  }

  /** The value each of those `Set`s gives, or None where the source skips
      it; `login` is the login name cut at its first "@". */
  function IdentityValues(who: WhoIs, login: CutResult): seq<Option<string>> {
    [Some(who.userID),
     Some(who.loginName),
     if login.found then Some(login.before) else None,
     if login.found then Some(login.after) else None,
     Some(who.displayName),
     if who.profilePicURL != "" then Some(who.profilePicURL) else None,
     if |who.caps| > 0 then Some(Join(who.caps, ", ")) else None,
     Some(who.nodeID),
     Some(who.nodeName),
     if |who.nodeCaps| > 0 then Some(Join(who.nodeCaps, ", ")) else None,
     if |who.nodeTags| > 0 then Some(Join(who.nodeTags, ", ")) else None]
  }

  /** Pairs each name with its value. */
  function Zip(names: seq<string>, values: seq<Option<string>>): (ups: seq<Update>)
    requires |names| == |values|
    ensures |ups| == |names|
    ensures forall j | 0 <= j < |ups| :: ups[j] == Update(names[j], values[j])
  {
    if names == [] then [] else [Update(names[0], values[0])] + Zip(names[1..], values[1..])
  }

  /** The identity `Set`s of `setWhoisHeaders`, in its order. */
  function IdentityUpdates(who: WhoIs, login: CutResult): seq<Update> {
    Zip(IdentitySuffixes, IdentityValues(who, login))
  }

  /** Makes one update: a `Set` when it carries a value. */
  function Apply(h: Header, u: Update): Header {
    if u.value.Some? then SetHeader(h, IdentityPrefix + u.suffix, u.value.value) else h
  }

  /** Makes the updates in order. */
  function ApplyAll(h: Header, ups: seq<Update>): Header
    decreases |ups|
  {
    if ups == [] then h else ApplyAll(Apply(h, ups[0]), ups[1..])
  }

  /** The value the last update of name `k` that sets anything gives it;
      only identity names are ever set. */
  function LastSet(ups: seq<Update>, k: string): (v: Option<string>)
    ensures v.Some? ==> IsIdentityKey(k)
    decreases |ups|
  {
    if ups == [] then None
    else
      var rest := LastSet(ups[1..], k);
      if rest.Some? then rest
      else if IdentityPrefix + ups[0].suffix == k then
        assert k[..|IdentityPrefix|] == IdentityPrefix;
        ups[0].value
      else None
  }

  /** After the updates, `k` has the one value of its last update, or
      what it had before when no update sets it. */
  lemma {:induction false} ApplyAllAt(h: Header, ups: seq<Update>, k: string)
    ensures var r := ApplyAll(h, ups);
            && (k in r <==> k in h || LastSet(ups, k).Some?)
            && (LastSet(ups, k).Some? ==> r[k] == [LastSet(ups, k).value])
            && (LastSet(ups, k).None? && k in h ==> r[k] == h[k])
    decreases |ups|
  {
    if ups != [] {
      ApplyAllAt(Apply(h, ups[0]), ups[1..], k);
    }
  }

  /** The identity headers set on top of `h`. */
  function SetIdentity(h: Header, who: WhoIs): Header {
    ApplyAll(h, IdentityUpdates(who, Cut(who.loginName, "@")))
  }

  /** The value the identity record gives header name `k`, if any. */
  function IdentityValue(who: WhoIs, k: string): Option<string> {
    LastSet(IdentityUpdates(who, Cut(who.loginName, "@")), k)
  }

  /** The headers `setWhoisHeaders` leaves on a request that carried `h`:
      the identity family is cleared, and when the lookup `applies`
      (whois not suppressed and a client present) set again from `who`. */
  function WhoisHeaders(h: Header, applies: bool, who: WhoIs): Header {
    var cleared := WithoutIdentity(h);
    if applies then SetIdentity(cleared, who) else cleared
  }

  /** Per header name: names outside the family pass through untouched;
      a family name is present only when the lookup applies and the
      record gives it a value, and then it has exactly that one value. No
      incoming identity header survives. */
  lemma WhoisHeadersAt(h: Header, applies: bool, who: WhoIs, k: string)
    ensures var r := WhoisHeaders(h, applies, who);
            var v := IdentityValue(who, k);
            && (!IsIdentityKey(k) ==> (k in r <==> k in h) && (k in r ==> r[k] == h[k]))
            && (IsIdentityKey(k) ==> (k in r <==> applies && v.Some?))
            && (IsIdentityKey(k) && k in r ==> r[k] == [v.value])
  {
    var ups := IdentityUpdates(who, Cut(who.loginName, "@"));
    ApplyAllAt(WithoutIdentity(h), ups, k);
  }

  /** The update naming `k` decides `k`'s value when no other update
      names it. */
  lemma {:induction false} LastSetOnly(ups: seq<Update>, i: nat, k: string)
    requires i < |ups| && IdentityPrefix + ups[i].suffix == k
    requires forall j | 0 <= j < |ups| && j != i :: ups[j].suffix != ups[i].suffix
    ensures LastSet(ups, k) == ups[i].value
    decreases |ups|
  {
    if i == 0 {
      forall j | 0 <= j < |ups[1..]|
        ensures IdentityPrefix + ups[1..][j].suffix != k
      {
        PrefixedInjective(ups[1..][j].suffix, ups[0].suffix);
      }
      LastSetNone(ups[1..], k);
    } else {
      LastSetOnly(ups[1..], i - 1, k);
    }
  }

  /** Distinct suffixes give distinct identity names. */
  lemma PrefixedInjective(a: string, b: string)
    ensures IdentityPrefix + a == IdentityPrefix + b ==> a == b
  {
    if IdentityPrefix + a == IdentityPrefix + b {
      assert (IdentityPrefix + a)[|IdentityPrefix|..] == a;
      assert (IdentityPrefix + b)[|IdentityPrefix|..] == b;
    }
  }

  /** No update names `k`: it is never set. */
  lemma {:induction false} LastSetNone(ups: seq<Update>, k: string)
    requires forall j | 0 <= j < |ups| :: IdentityPrefix + ups[j].suffix != k
    ensures LastSet(ups, k) == None
    decreases |ups|
  {
    if ups != [] {
      LastSetNone(ups[1..], k);
    }
  }

  /** The value the record gives the `i`-th name of the family is the
      `i`-th value of the identity step. */
  lemma IdentityValueAt(who: WhoIs, i: nat)
    requires i < |IdentitySuffixes|
    ensures IdentityValue(who, IdentityPrefix + IdentitySuffixes[i]) == IdentityValues(who, Cut(who.loginName, "@"))[i]
  {
    IdentitySuffixesDistinct();
    LastSetOnly(IdentityUpdates(who, Cut(who.loginName, "@")), i, IdentityPrefix + IdentitySuffixes[i]);
  }

  /** The login name is split at its first "@": both halves are set
      exactly when there is one, and joined by "@" they give the login
      name back, the local part holding no "@". */
  lemma LoginNameSplit(who: WhoIs)
    ensures IdentityValue(who, LocalpartKey).Some? <==> Contains(who.loginName, "@")
    ensures IdentityValue(who, DomainKey).Some? <==> Contains(who.loginName, "@")
    ensures IdentityValue(who, LocalpartKey).Some? ==>
              IdentityValue(who, LocalpartKey).value + "@" + IdentityValue(who, DomainKey).value == who.loginName
              && !Contains(IdentityValue(who, LocalpartKey).value, "@")
  {
    IdentityValueAt(who, 2);
    IdentityValueAt(who, 3);
  }

  /** The header names that are always set, with the record's values. */
  lemma AlwaysSetFields(who: WhoIs)
    ensures IdentityValue(who, UserKey) == Some(who.userID)
    ensures IdentityValue(who, LoginKey) == Some(who.loginName)
    ensures IdentityValue(who, DisplayNameKey) == Some(who.displayName)
    ensures IdentityValue(who, NodeKey) == Some(who.nodeID)
    ensures IdentityValue(who, NodeNameKey) == Some(who.nodeName)
  {
    IdentityValueAt(who, 0);
    IdentityValueAt(who, 1);
    IdentityValueAt(who, 4);
    IdentityValueAt(who, 7);
    IdentityValueAt(who, 8);
  }

  /** The optional header names are set exactly when their field is
      non-empty; lists are joined with ", ". */
  lemma OptionalFields(who: WhoIs)
    ensures IdentityValue(who, ProfilePicKey) == if who.profilePicURL != "" then Some(who.profilePicURL) else None
    ensures IdentityValue(who, CapsKey) == if |who.caps| > 0 then Some(Join(who.caps, ", ")) else None
    ensures IdentityValue(who, NodeCapsKey) == if |who.nodeCaps| > 0 then Some(Join(who.nodeCaps, ", ")) else None
    ensures IdentityValue(who, NodeTagsKey) == if |who.nodeTags| > 0 then Some(Join(who.nodeTags, ", ")) else None
  {
    IdentityValueAt(who, 5);
    IdentityValueAt(who, 6);
    IdentityValueAt(who, 9);
    IdentityValueAt(who, 10);
  }

  /** The names the identity step can set: a fixed family of eleven. */
  const IdentityNames: set<string> :=
    {UserKey, LoginKey, LocalpartKey, DomainKey, DisplayNameKey, ProfilePicKey,
     CapsKey, NodeKey, NodeNameKey, NodeCapsKey, NodeTagsKey}

  /** Nothing outside the family is ever given a value. */
  lemma OnlyIdentityNames(who: WhoIs, k: string)
    ensures IdentityValue(who, k).Some? ==> k in IdentityNames
  {
    var ups := IdentityUpdates(who, Cut(who.loginName, "@"));
    if k !in IdentityNames {
      LastSetNone(ups, k);
    }
  }

  /** Making one more update after a run of them. */
  lemma {:induction false} ApplyAllSnoc(h: Header, ups: seq<Update>, u: Update)
    ensures ApplyAll(h, ups + [u]) == Apply(ApplyAll(h, ups), u)
    decreases |ups|
  {
    if ups == [] {
      assert [] + [u] == [u];
    } else {
      assert (ups + [u])[1..] == ups[1..] + [u];
      ApplyAllSnoc(Apply(h, ups[0]), ups[1..], u);
    }
  }

  /** The effect of the `j`-th identity `Set` after the first `j`. */
  lemma IdentityStep(cleared: Header, who: WhoIs, login: CutResult, j: nat, h: Header)
    requires j < |IdentitySuffixes|
    requires h == ApplyAll(cleared, IdentityUpdates(who, login)[..j])
    ensures var v := IdentityValues(who, login)[j];
            ApplyAll(cleared, IdentityUpdates(who, login)[..j + 1])
            == if v.Some? then SetHeader(h, IdentityPrefix + IdentitySuffixes[j], v.value) else h
  {
    var ups := IdentityUpdates(who, login);
    ApplyPrefixStep(cleared, ups, j);
  }

  /** Applying one more update of a list after the ones before it. */
  lemma ApplyPrefixStep(cleared: Header, ups: seq<Update>, j: nat)
    requires j < |ups|
    ensures ApplyAll(cleared, ups[..j + 1]) == Apply(ApplyAll(cleared, ups[..j]), ups[j])
  {
    assert ups[..j + 1] == ups[..j] + [ups[j]];
    ApplyAllSnoc(cleared, ups[..j], ups[j]);
  }

  /** The loop at the start of `setWhoisHeaders`: deletes, in place,
      every header whose name starts with the identity prefix. */
  method ClearIdentityHeaders(out: OutRequest)
    modifies out
    ensures out.url == old(out.url) && out.host == old(out.host)
    ensures out.header == WithoutIdentity(old(out.header))
  {
    ghost var h0 := out.header;
    var keys := out.header.Keys;
    while keys != {}
      invariant keys <= h0.Keys
      invariant forall k :: k in out.header <==> k in h0 && (k in keys || !IsIdentityKey(k))
      invariant forall k | k in out.header :: out.header[k] == h0[k]
      invariant out.url == old(out.url) && out.host == old(out.host)
      decreases keys
    {
      var k :| k in keys;
      if HasPrefix(k, "X-Tailscale-") {
        out.header := DelHeader(out.header, k);
      }
      keys := keys - {k};
    }
    assert out.header == WithoutIdentity(h0);
  }

  /** The user `Set`s of `setWhoisHeaders`, one by one, from the record
      `who`: the first seven identity updates. */
  method SetUserHeaders(out: OutRequest, who: WhoIs)
    modifies out
    ensures out.url == old(out.url) && out.host == old(out.host)
    ensures out.header == ApplyAll(old(out.header), IdentityUpdates(who, Cut(who.loginName, "@"))[..7])
  {
    ghost var cleared := out.header;
    var login := Cut(who.loginName, "@");
    assert IdentityUpdates(who, login)[..0] == [];
    var h := out.header;
    IdentityStep(cleared, who, login, 0, h);
    h := SetHeader(h, UserKey, who.userID);
    IdentityStep(cleared, who, login, 1, h);
    h := SetHeader(h, LoginKey, who.loginName);
    IdentityStep(cleared, who, login, 2, h);
    if login.found {
      h := SetHeader(h, LocalpartKey, login.before);
    }
    IdentityStep(cleared, who, login, 3, h);
    if login.found {
      h := SetHeader(h, DomainKey, login.after);
    }
    IdentityStep(cleared, who, login, 4, h);
    h := SetHeader(h, DisplayNameKey, who.displayName);
    IdentityStep(cleared, who, login, 5, h);
    if who.profilePicURL != "" {
      h := SetHeader(h, ProfilePicKey, who.profilePicURL);
    }
    IdentityStep(cleared, who, login, 6, h);
    if |who.caps| > 0 {
      h := SetHeader(h, CapsKey, Join(who.caps, ", "));
    }
    out.header := h;
  }

  /** The node `Set`s of `setWhoisHeaders`, once the user `Set`s are made
      on top of `cleared`: the last four identity updates. */
  method SetNodeHeaders(out: OutRequest, who: WhoIs, ghost cleared: Header)
    requires out.header == ApplyAll(cleared, IdentityUpdates(who, Cut(who.loginName, "@"))[..7])
    modifies out
    ensures out.url == old(out.url) && out.host == old(out.host)
    ensures out.header == SetIdentity(cleared, who)
  {
    ghost var login := Cut(who.loginName, "@");
    var h := out.header;
    IdentityStep(cleared, who, login, 7, h);
    h := SetHeader(h, NodeKey, who.nodeID);
    IdentityStep(cleared, who, login, 8, h);
    h := SetHeader(h, NodeNameKey, who.nodeName);
    IdentityStep(cleared, who, login, 9, h);
    if |who.nodeCaps| > 0 {
      h := SetHeader(h, NodeCapsKey, Join(who.nodeCaps, ", "));
    }
    IdentityStep(cleared, who, login, 10, h);
    if |who.nodeTags| > 0 {
      h := SetHeader(h, NodeTagsKey, Join(who.nodeTags, ", "));
    }
    assert IdentityUpdates(who, login)[..11] == IdentityUpdates(who, login);
    out.header := h;
  }

  /** `setWhoisHeaders`: every incoming header of the identity family is
      deleted first, whether or not a lookup follows; when whois is not
      suppressed and a client is present, the headers of the record `who`
      are then set. `who` stands for the result of the `WhoIs` lookup of
      the requesting address. */
  method SetWhoisHeaders(suppressWhois: bool, hasClient: bool, out: OutRequest, who: WhoIs)
    modifies out
    ensures out.url == old(out.url) && out.host == old(out.host)
    ensures out.header == WhoisHeaders(old(out.header), !suppressWhois && hasClient, who)
  {
    ClearIdentityHeaders(out);
    if suppressWhois || !hasClient {
      return;
    }
    ghost var cleared := out.header;
    SetUserHeaders(out, who);
    SetNodeHeaders(out, who, cleared);
  }

  // ---------------------------------------------------------------------
  // rewrite

  /** A network address split into host and port (`net.SplitHostPort`). */
  datatype HostPort = HostPort(host: string, port: string)

  /** The library steps `rewrite` relies on, taken as given functions:
      the URL `ProxyRequest.SetURL` gives the outgoing request from the
      destination and the incoming URL, the headers after
      `ProxyRequest.SetXForwarded`, and `net.SplitHostPort`. */
  datatype HttpLib = HttpLib(
    setURL: (Url, Url) -> Url,
    setXForwarded: (Request, Header) -> Header,
    splitHostPort: string -> Option<HostPort>)

  /** The settings of a validated service that `rewrite` reads. */
  datatype ProxyConfig = ProxyConfig(
    destURL: Url,
    recommendedProxyHeaders: bool,
    suppressWhois: bool,
    hasClient: bool)

  const SchemeKey := "X-Scheme"
  const RealIpKey := "X-Real-Ip"
  const ForwardedServerKey := "X-Forwarded-Server"
  const ForwardedPortKey := "X-Forwarded-Port"

  /** The recommended proxy headers set on top of `h` for the incoming
      request `r`. */
  function ProxyHeaders(r: Request, h: Header, split: string -> Option<HostPort>): (p: Header)
    ensures SchemeKey in p && p[SchemeKey] == [if r.tls then "https" else "http"]
    ensures split(r.remoteAddr).Some? ==> RealIpKey in p && p[RealIpKey] == [split(r.remoteAddr).value.host]
    ensures split(r.remoteAddr).None? ==>
              (RealIpKey in p <==> RealIpKey in h) && (RealIpKey in h ==> p[RealIpKey] == h[RealIpKey])
    ensures ForwardedServerKey in p
    ensures split(r.host).None? ==>
              p[ForwardedServerKey] == [r.host]
              && (ForwardedPortKey in p <==> ForwardedPortKey in h)
              && (ForwardedPortKey in h ==> p[ForwardedPortKey] == h[ForwardedPortKey])
    ensures split(r.host).Some? ==>
              p[ForwardedServerKey] == [split(r.host).value.host]
              && ForwardedPortKey in p && p[ForwardedPortKey] == [split(r.host).value.port]
    ensures forall k | k != SchemeKey && k != RealIpKey && k != ForwardedServerKey && k != ForwardedPortKey ::
              (k in p <==> k in h) && (k in p ==> p[k] == h[k])
  {
    var h1 := SetHeader(h, SchemeKey, if r.tls then "https" else "http");
    var ip := split(r.remoteAddr);
    var h2 := if ip.Some? then SetHeader(h1, RealIpKey, ip.value.host) else h1;
    var hp := split(r.host);
    if hp.None? then SetHeader(h2, ForwardedServerKey, r.host)
    else SetHeader(SetHeader(h2, ForwardedServerKey, hp.value.host), ForwardedPortKey, hp.value.port)
  }

  /** The URL the outgoing request gets: the library's join of the
      destination and the incoming URL, except that an empty incoming
      path gives exactly the destination's path. */
  function RewrittenUrl(lib: HttpLib, dest: Url, incoming: Url): (u: Url)
    ensures incoming.path == "" ==> u.path == dest.path
    ensures u == lib.setURL(dest, incoming).(path := u.path)
    ensures incoming.path != "" ==> u == lib.setURL(dest, incoming)
  {
    var u := lib.setURL(dest, incoming);
    if incoming.path == "" then u.(path := dest.path) else u
  }

  /** The recommended-proxy-headers block of `rewrite`: the scheme, the
      client address, the forwarded server and port, and the incoming Host. */
  method SetProxyHeaders(split: string -> Option<HostPort>, incoming: Request, out: OutRequest)
    modifies out
    ensures out.url == old(out.url) && out.host == incoming.host
    ensures out.header == ProxyHeaders(incoming, old(out.header), split)
  {
    if !incoming.tls {
      out.header := SetHeader(out.header, SchemeKey, "http");
    } else {
      out.header := SetHeader(out.header, SchemeKey, "https");
    }
    out.host := incoming.host;
    var remote := split(incoming.remoteAddr);
    if remote.Some? {
      out.header := SetHeader(out.header, RealIpKey, remote.value.host);
    }
    var hostPort := split(incoming.host);
    if hostPort.None? {
      out.header := SetHeader(out.header, ForwardedServerKey, incoming.host);
    } else {
      out.header := SetHeader(out.header, ForwardedServerKey, hostPort.value.host);
      out.header := SetHeader(out.header, ForwardedPortKey, hostPort.value.port);
    }
  }

  /** `rewrite`: points the outgoing request at the destination, sets the
      forwarding headers, the recommended proxy headers when enabled,
      and the identity headers last. `SetURL` clears the outgoing Host,
      which the recommended headers set back to the incoming Host. */
  method Rewrite(cfg: ProxyConfig, lib: HttpLib, incoming: Request, out: OutRequest, who: WhoIs)
    modifies out
    ensures out.url == RewrittenUrl(lib, cfg.destURL, incoming.url)
    ensures out.host == if cfg.recommendedProxyHeaders then incoming.host else ""
    ensures var xf := lib.setXForwarded(incoming, old(out.header));
            out.header == WhoisHeaders(if cfg.recommendedProxyHeaders then ProxyHeaders(incoming, xf, lib.splitHostPort) else xf,
                                       !cfg.suppressWhois && cfg.hasClient, who)
  {
    out.url := lib.setURL(cfg.destURL, incoming.url);
    out.host := "";
    if incoming.url.path == "" {
      out.url := out.url.(path := cfg.destURL.path);
    }
    out.header := lib.setXForwarded(incoming, out.header);
    if cfg.recommendedProxyHeaders {
      SetProxyHeaders(lib.splitHostPort, incoming, out);
    }
    SetWhoisHeaders(cfg.suppressWhois, cfg.hasClient, out, who);
  }

  /** The proxy headers `rewrite` derives are not identity headers, so
      setting the identity headers afterwards keeps them as they are. */
  lemma ProxyHeadersSurviveWhois(r: Request, h: Header, split: string -> Option<HostPort>, applies: bool, who: WhoIs)
    ensures var w := WhoisHeaders(ProxyHeaders(r, h, split), applies, who);
            && SchemeKey in w && w[SchemeKey] == [if r.tls then "https" else "http"]
            && ForwardedServerKey in w
            && (split(r.host).None? ==> w[ForwardedServerKey] == [r.host])
            && (split(r.host).Some? ==>
                  w[ForwardedServerKey] == [split(r.host).value.host]
                  && ForwardedPortKey in w && w[ForwardedPortKey] == [split(r.host).value.port])
  {
    var p := ProxyHeaders(r, h, split);
    assert SchemeKey[2] != IdentityPrefix[2] && ForwardedServerKey[2] != IdentityPrefix[2] && ForwardedPortKey[2] != IdentityPrefix[2];
    WhoisHeadersAt(p, applies, who, SchemeKey);
    WhoisHeadersAt(p, applies, who, ForwardedServerKey);
    WhoisHeadersAt(p, applies, who, ForwardedPortKey);
  }
}
