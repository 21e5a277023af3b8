/** The HTTP values the proxy reads and writes: Go's `http.Header` with
    its `Set`, `Add` and `Del`, the URL fields the proxy touches, the
    incoming request and the outgoing request that the reverse proxy
    builds (`httputil.ProxyRequest.Out`). Header names are taken to be in
    canonical form already; Go canonicalises them on the way in. */
module Http {

  /** A header map: canonical name to its values, in order. */
  type Header = map<string, seq<string>>

  /** `Header.Set`: `name` now has exactly the one value `value`. */
  function SetHeader(h: Header, name: string, value: string): Header {
    h[name := [value]]
  }

  /** `Header.Add`: `value` goes after the values `name` already has. */
  function AddHeader(h: Header, name: string, value: string): Header {
    h[name := (if name in h then h[name] else []) + [value]]
  }

  /** `Header.Del` */
  function DelHeader(h: Header, name: string): Header {
    h - {name}
  }

  /** What each operation does to the name it is given, and that every
      other name `k` keeps its values. */
  lemma HeaderOpsAt(h: Header, name: string, value: string, k: string)
    ensures name in SetHeader(h, name, value) && SetHeader(h, name, value)[name] == [value]
    ensures var a := AddHeader(h, name, value);
            && name in a && |a[name]| >= 1 && a[name][|a[name]| - 1] == value
            && (name in h ==> a[name][..|a[name]| - 1] == h[name])
            && (name !in h ==> a[name] == [value])
    ensures name !in DelHeader(h, name)
    ensures k != name ==>
              && (k in SetHeader(h, name, value) <==> k in h)
              && (k in AddHeader(h, name, value) <==> k in h)
              && (k in DelHeader(h, name) <==> k in h)
              && (k in h ==> SetHeader(h, name, value)[k] == h[k]
                             && AddHeader(h, name, value)[k] == h[k]
                             && DelHeader(h, name)[k] == h[k])
  {
  }

  /** The fields of a `url.URL` the proxy looks at or rewrites. */
  datatype Url = Url(scheme: string, host: string, path: string, rawPath: string, rawQuery: string)

  /** An incoming request (`http.Request`): `tls` says whether its
      connection state is present (`r.TLS != nil`). */
  datatype Request = Request(url: Url, host: string, remoteAddr: string, tls: bool, header: Header)

  /** The outgoing request that the rewrite hook fills in place. */
  class OutRequest {
    var url: Url
    var host: string
    var header: Header

    constructor (url: Url, host: string, header: Header)
      ensures this.url == url && this.host == host && this.header == header
    {
      this.url := url;
      this.host := host;
      this.header := header;
    }
  }
}
