# tsnsrv core, modelled in Dafny

tsnsrv is a reverse proxy that serves one upstream HTTP service as a node
of a Tailscale tailnet, and optionally on the public internet ("funnel").
This project models the parts of it that decide things:

- **Command line** (`Cli`, cli.go).
  - An allow-list entry (`prefix`) can be tagged `tailnet:` or `funnel:`.
  - `prefix.matches` decides whether an entry admits a request, given
    where the request came from.
  - Three repeatable flag values: `-prefix`, `-upstreamHeader` and `-tag`,
    each with its `Set` parser and, where it exists, its `String` renderer.
  - `TailnetSrv.validate` collects every flag conflict found, then looks
    at the positional destination URL.
- **Request path** (`Proxy`, proxy.go).
  - `matchPrefixes` is the allow-list gate in front of the proxy.
  - `setWhoisHeaders` first deletes every incoming `X-Tailscale-*`
    header. It then sets the identity headers from the WhoIs record.
  - `rewrite` aims the outgoing request at the destination. It adds the
    forwarding headers and the optional recommended proxy headers, and
    ends with the identity step.
  - main.go holds copies of these three functions with the same code
    (main.go:205-239, 242-292, 298-325). They are modelled once, here.
- **Older command line** (`LegacyMain`, main.go).
  - Its `-prefix` flag keeps the raw values.
  - Its validation makes fewer checks. It counts the missing
    destination URL among them and parses no URL once any error is found.
- **State directory** (`State`, state.go).
  - `StateDir.Compute` chooses where the node keeps its state. The order
    is: the `-stateDir` flag, then `TS_STATE_DIR`, then the legacy shared
    directory `tsnet-tsnsrv` if its machine-name file names this machine
    or is missing, and otherwise `tsnet-tsnsrv-<name>`.
  - The struct's lookups are function fields. The model records every
    lookup `Compute` makes in a trace, so the single write to the file
    system can be stated and proved.

Supporting modules:
- `Strings` models the parts of Go's `strings` package that are used:
  `HasPrefix`, `TrimPrefix`, `Index`, `Cut`, `Join` and `TrimSpace`, the
  last with `unicode.IsSpace`'s white space.
- `Http` models the header map with `Set`, `Add` and `Del`, the URL and
  request fields that are read, and the outgoing request as a class that
  `rewrite` changes in place.
- `Results` holds `Option` and `Result`.

Library calls whose code is not part of the model are given functions,
passed as parameters or datatype fields: `url.Parse`, `path.Join`,
`ProxyRequest.SetURL`, `ProxyRequest.SetXForwarded`, `net.SplitHostPort`,
and the WhoIs lookup, whose result is passed in.

## Model

| member | source | states |
|---|---|---|
| Strings.Cut | cli.go:117 | The split is at the first occurrence of the separator. It is found exactly when the string contains it. Before, separator and after rebuild the string, and the part before holds no occurrence. Not found gives the whole string and "". |
| Strings.TrimSpace | state.go:82 | The result is an infix of the input with only white space around it, and it neither starts nor ends with white space. |
| Http.SetHeader | proxy.go:24 | Definition of Go's `Header.Set`: the name maps to exactly the one value given. |
| Http.AddHeader | cli.go:124 | Definition of Go's `Header.Add`: the value goes after the values the name already has, or becomes its only value. |
| Http.DelHeader | proxy.go:56 | Definition of Go's `Header.Del`: the name and its values are removed. |
| Http.HeaderOpsAt | proxy.go:24-38 | `Set` leaves the name with the one value, `Add` keeps the old values and puts the new one last, `Del` removes the name. Every other name keeps its presence and its values under all three. |
| Cli.Render | cli.go:66-75 | Definition: an entry is shown as its path, with `tailnet:` or `funnel:` in front when tagged. Its shape is stated by Cli.RenderShape. |
| Cli.RenderShape | cli.go:66-75 | The shown text ends with the path, starts with the tag when there is one, and equals the path exactly when the entry is untagged. |
| Cli.PrefixFlag.String | cli.go:64-83 | The shown entries joined by ", ": empty for no entries, the one entry's rendering for one. Its growth under `Set` is stated by Cli.PrefixFlag.Set. |
| Cli.Matches | cli.go:49-60 | A funnel request is never admitted by a `tailnet:` entry, and a tailnet request never by a `funnel:` entry. An empty path never admits. Otherwise a request is admitted exactly when the entry's path is a literal prefix of its path, and of its raw path when one is set. The stripped parts are what follows the prefix. |
| Cli.ParsePrefix | cli.go:85-96 | Rendering the parsed entry gives back the flag value. The entry is tailnet-only exactly when the value starts with `tailnet:`, and funnel-only exactly when it starts with `funnel:`. Only a tag shortens the path. |
| Cli.ParseRender | cli.go:64-96 | Parsing a rendered entry gives the entry back, provided an untagged path does not itself start with a tag. |
| Cli.UntaggedLookalikeDoesNotRoundTrip | cli.go:69-70 | The proviso of ParseRender is needed: untagged `tailnet:/x` comes back as tailnet-only `/x`. |
| Cli.RenderAll | cli.go:64-81 | One rendered string per entry, in order. |
| Cli.RenderAllSnoc | cli.go:81-83 | Adding an entry adds ", " and the original flag value at the end of the rendering; a first entry's rendering is the value alone. |
| Cli.PrefixFlag.Set | cli.go:85-100 | Never fails. Appends the parsed entry, and `String()` grows by ", " plus the value. |
| Cli.HeaderFlag.Set | cli.go:116-126 | Fails, changing nothing, exactly when the value has no ": ". Otherwise it adds the text after the first ": " as one more value of the name before it. That name holds no ": ". |
| Cli.TagFlag.String | cli.go:130-132 | The tags joined by ", ": empty for no tags, the tag itself for one. |
| Cli.TagFlag.Set | cli.go:136-142 | Fails, changing nothing (so `String()` is unchanged), exactly when the value does not start with `tag:`. Otherwise it appends the value, and `String()` grows by ", " plus the value, or is the value for the first tag. |
| Cli.ValidationError.Message | cli.go:226-232 | Definition: the fixed text of each error, and for a bad URL the argument in quotes followed by the parser's error. |
| Cli.ParseErrorKept | cli.go:260 | The text of a bad-URL error ends with the parser's error, as `%w` wraps it. |
| Cli.ReportedExactly | cli.go:235-253 | An error is collected exactly when its check is made and the settings have its conflict. No check adds more than one error. |
| Cli.ReportedInOrder | cli.go:235-253 | Checks made in order collect their errors in that order. |
| Cli.FlagErrorsUnfold | cli.go:236-253 | The collected flag errors are the six checks' contributions, concatenated in source order. |
| Cli.CheckFlags | cli.go:235-253 | The six `if` checks give exactly the flag errors, each present exactly when its conflict holds. |
| Cli.ValidationErrorsInOrder | cli.go:255-263 | An error list that validation returns is in check order, with the argument error last. |
| Cli.Validate | cli.go:234-268 | Valid exactly when there is no flag conflict, exactly one argument and that argument parses; the valid value holds the settings and the parsed URL. A wrong argument count gives the flag errors plus NoDestURL, without parsing. A parse failure appends InvalidDestURL to the flag errors. A good URL with flag errors gives those errors alone. |
| Proxy.Admits | proxy.go:114-116 | Definition of the gate's test: trimming the prefix shortens the path, and the raw path too when one is set. Its meaning is stated by Proxy.AdmitsMeans. |
| Proxy.AdmitsMeans | proxy.go:114-116 | The gate's length test admits exactly when the prefix is a non-empty literal prefix of the path, and of the raw path when one is set. That is the test an untagged allow-list entry makes. |
| Proxy.FirstAdmitting | proxy.go:113-128 | The index of the first admitting prefix, with every earlier prefix refusing, or the list length if none admits. |
| Proxy.Forwarded | proxy.go:117-124 | Without strip, the request is handed on as it is. With strip, only the path and raw path change, and the admitting prefix followed by the new path rebuilds the old one. |
| Proxy.MatchPrefixes | proxy.go:108-135 | An empty list hands every request on untouched. Otherwise the answer is 404 exactly when no prefix admits, and a forwarded request is the one the first admitting prefix gives. |
| Proxy.WithoutIdentity | proxy.go:54-58 | Keeps exactly the headers whose names lack the `X-Tailscale-` prefix, with their values. |
| Proxy.IdentitySuffixesDistinct | proxy.go:77-99 | The eleven identity header names are pairwise distinct. |
| Proxy.LastSet | proxy.go:76-100 | Only names with the `X-Tailscale-` prefix are ever given a value. |
| Proxy.ApplyAllAt | proxy.go:76-100 | After the `Set`s, a name holds exactly the one value of the last `Set` that names it. A name no `Set` names keeps what it had. |
| Proxy.WhoisHeadersAt | proxy.go:52-102 | Per name: names outside the identity family pass through unchanged. An identity name is present exactly when the lookup applies and the record gives it a value, and then it holds that single value. No incoming identity header survives. |
| Proxy.IdentityValues | proxy.go:77-99 | Definition: the value each of the eleven `Set`s gives, in source order, or none where the source skips the `Set`. What it gives each header is stated by AlwaysSetFields, OptionalFields and LoginNameSplit. |
| Proxy.SetIdentity | proxy.go:76-100 | Definition: the eleven identity updates made in order on top of the given headers. Its per-name effect is stated by Proxy.ApplyAllAt. |
| Proxy.WhoisHeaders | proxy.go:54-61 | Definition: the identity family cleared, then set from the record only when the lookup applies. Its per-name effect is stated by Proxy.WhoisHeadersAt. |
| Proxy.IdentityValueAt | proxy.go:76-100 | The i-th identity name gets the i-th value of the identity step. |
| Proxy.LoginNameSplit | proxy.go:78-84 | Localpart and Domain are set exactly when the login name contains "@". Joined by "@" they give the login name back, and the local part holds no "@". |
| Proxy.AlwaysSetFields | proxy.go:77-94 | User, LoginName, DisplayName, Node and Node-Name always get the record's values. |
| Proxy.OptionalFields | proxy.go:86-99 | ProfilePicURL, Caps, Node-Caps and Node-Tags are set exactly when their field is non-empty; lists are joined with ", ". |
| Proxy.OnlyIdentityNames | proxy.go:76-100 | Nothing outside the eleven names is ever set. |
| Proxy.ClearIdentityHeaders | proxy.go:54-58 | The loop deletes, in place, exactly the identity-family headers and touches nothing else. |
| Proxy.SetUserHeaders | proxy.go:76-91 | The user `Set`s leave the headers the first seven identity updates give. |
| Proxy.SetNodeHeaders | proxy.go:93-100 | The node `Set`s complete the identity step. |
| Proxy.SetWhoisHeaders | proxy.go:52-102 | The new headers are WhoisHeaders of the old ones: cleared, then set from the record only when whois is not suppressed and a client exists. The URL and Host are unchanged. |
| Proxy.ProxyHeaders | proxy.go:22-40 | `X-Scheme` is http or https by TLS. `X-Real-Ip` is set only when the remote address splits. `X-Forwarded-Server` is the Host, or its host part when it splits, and `X-Forwarded-Port` is set only then. Every other header is unchanged. |
| Proxy.RewrittenUrl | proxy.go:15-18 | An empty incoming path gives the destination's path. Otherwise the URL is the one `SetURL` gives. |
| Proxy.SetProxyHeaders | proxy.go:22-40 | The in-place block leaves ProxyHeaders of the old headers, sets the outgoing Host to the incoming Host, and keeps the URL. |
| Proxy.Rewrite | proxy.go:14-41 | The outgoing URL is RewrittenUrl. The Host is the incoming Host only with recommended headers, and empty otherwise. The headers are the identity step applied to the forwarded headers, with the proxy headers added first when enabled. |
| Proxy.ProxyHeadersSurviveWhois | proxy.go:22-41 | The identity step that runs last keeps `X-Scheme`, `X-Forwarded-Server` and `X-Forwarded-Port` as the proxy-header block set them. |
| LegacyMain.PrefixFlag.Set | main.go:27-36 | Never fails. Appends the raw value, and `String()` grows by ", " plus the value. |
| LegacyMain.PrefixFlag.String | main.go:29-31 | The raw values joined by ", ": empty for none, the value itself for one. |
| LegacyMain.ValidationError.Message | main.go:101-122 | Definition: the fixed texts, with their trailing periods, and for a bad URL the argument in quotes followed by the parser's error. |
| LegacyMain.ParseErrorKept | main.go:122 | The text of a bad-URL error ends with the parser's error, as `%w` wraps it. |
| LegacyMain.ReportedExactly | main.go:99-115 | An error is collected exactly when its check is made and finds its problem; NoDestURL is counted among the checks. |
| LegacyMain.ErrorsUnfold | main.go:100-115 | The collected errors are the five checks' contributions, in source order. |
| LegacyMain.CheckAll | main.go:99-115 | The five `if` checks give exactly those errors, each present exactly when its problem holds. |
| LegacyMain.Validate | main.go:98-127 | Any collected error is returned with all the others, and no URL is parsed. Valid exactly when nothing is collected, there is one argument and it parses. A parse failure is then the only error. |
| LegacyMain.CleanMeansOneArgument | main.go:113-120 | No collected error implies exactly one argument, so the parse reads an argument that exists. |
| State.Compute | state.go:38-87 | At most five lookups are made. With the flag set none are made; otherwise the environment is read first. |
| State.StateError.Message | state.go:53-79 | Each error text is a fixed explanation with the lookup's error wrapped at the end. |
| State.MessagesDistinct | state.go:53-79 | Two different errors wrapping the same cause have different texts. |
| State.FlagWins | state.go:40-42 | A non-empty flag is the answer, with no lookup at all. |
| State.EnvWins | state.go:45-48 | Without the flag, a non-empty `TS_STATE_DIR` is the answer, after that one lookup. |
| State.LookupErrors | state.go:51-59 | A failing user-config-directory lookup or existence test gives its wrapped error. |
| State.ChosenDirectory | state.go:63-86 | No legacy directory gives `tsnet-tsnsrv-<name>`. A missing machine-name file is written, as the last lookup, with the machine name. The answer is then the legacy directory, or the wrapped write error. Another read error is returned wrapped. File contents naming this machine, white space aside, give the legacy directory; any other name gives the machine's own directory. |
| State.TraceIsPrefix | state.go:38-87 | Every run's lookups are a prefix of the fixed order env, config dir, exists, read, write. A write happens at most once, only after the machine-name file was missing, and it writes the machine name to that file. |
| State.LegacyDirBelongsToMachine | state.go:67-84 | The legacy directory is answered only when its machine-name file named this machine, or had just been written with its name. |

## Left out

- Header names are not canonicalised (`CanonicalMIMEHeaderKey`). The names the proxy sets are written in the form Go stores: the identity names in canonical form, such as `X-Tailscale-User-Loginname` for `Set("X-Tailscale-User-LoginName")`, while the other names are canonical as written. A name from outside, such as the name part of an `-upstreamHeader` value or an incoming header, is taken as already canonical.
- `headers.String` (cli.go:104-112) is not modelled. It joins in Go's map iteration order, which is unspecified.
- WhoIs lookup failure (proxy.go:69-75) is not modelled. The source logs the error, carries on and reads fields of the nil record, which would panic. The model only takes the successful record.
- The WhoIs timeout and context (proxy.go:63-68), all logging, and the listener, mux, tsnet and TLS set-up (`Run` and its helpers) are I/O or concurrency and are left out.
- The static upstream headers and the other flags of cli.go are outside this model. Only the fields that validation reads are kept.
- `url.Parse`, `path.Join`, `SetURL`, `SetXForwarded` and `net.SplitHostPort` are given functions. Their own behaviour, such as path cleaning or IPv6 bracket handling, is not modelled.
- User and node IDs are kept in their rendered string form.
- The `%#v` quoting in the error texts is shown as plain double quotes, without Go's escaping.
- `errors.Join` is modelled as the list of the joined errors, not their newline-separated text.
- Aliasing through the request copy in `matchPrefixes` (proxy.go:117-124) is not modelled. `matchPrefixes` never writes to `r`. But `*r2 = *r` is a shallow copy, so `r2` shares `r`'s Header, and without strip its URL too, and a handler writing through `r2` would change `r`. The model treats requests as values.
- `ClearIdentityHeaders` picks the keys in an arbitrary order, matching Go's unspecified map order. The result does not depend on that order.
- Which kind of error `readFileString` reports (`errors.Is(err, fs.ErrNotExist)`) is given by the `ReadOutcome` the lookup returns.
- State.LegacyDirBelongsToMachine: requires the legacy directory and the machine's own directory to differ. `path.Join` is a given function here, so nothing else rules out the two coinciding.
- Strings.TrimSpace: holds for Go's white-space characters only as listed in `IsSpace`. Bytes that are not valid UTF-8 are not modelled.
