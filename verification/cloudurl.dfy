/** Decoding of the `TDENGINE_CLOUD_URL` environment variable into the host
    and port the shell connects to (shellMain.c, lines 105-126).

    The value loses everything up to and including the first `http://`, or,
    when there is none, the first `https://`; what remains is cut at its last
    colon into a host and a port text, and the port text is read with `atoi`.
    A remainder without any colon is rejected. */
module CloudUrl {
  import opened Wrappers
  import opened CStrings

  const Http: string := "http://"
  const Https: string := "https://"

  /** Where the cloud service is reached. */
  datatype Endpoint = Endpoint(host: string, port: int)

  /** The decoder's only error: the text left after the scheme has no colon.
      It carries that text, which is what the diagnostic prints. */
  datatype UrlError = MissingPort(rest: string)

  /** The text after the first `http://`, else after the first `https://`,
      else the whole value. Either scheme is found anywhere in the value. */
  function StripScheme(url: string): (r: string)
    ensures |r| <= |url| && r == url[|url| - |r|..]
    ensures forall i :: FirstOccurrence(url, Http, i) ==> r == url[i + |Http|..]
    ensures !Contains(url, Http) ==>
      forall i :: FirstOccurrence(url, Https, i) ==> r == url[i + |Https|..]
    ensures !Contains(url, Http) && !Contains(url, Https) ==> r == url
  {
    match IndexOf(url, Http)
    case Some(i) => url[i + |Http|..]
    case None =>
      match IndexOf(url, Https)
      case Some(i) => url[i + |Https|..]
      case None => url
  }

  /** Cuts `s` at its last colon into the text before and the text after. */
  function SplitAtLastColon(s: string): (r: Option<(string, string)>)
    ensures r.None? <==> ':' !in s
    ensures r.Some? ==> r.value.0 + [':'] + r.value.1 == s && ':' !in r.value.1
  {
    match LastIndexOf(s, ':')
    case None => None
    case Some(k) =>
      assert s[..k] + [':'] + s[k + 1..] == s;
      Some((s[..k], s[k + 1..]))
  }

  /** The host and port named by the value of `TDENGINE_CLOUD_URL`. */
  function ParseCloudUrl(url: string): (r: Result<Endpoint, UrlError>)
    ensures r.Failure? <==> ':' !in StripScheme(url)
    ensures r.Failure? ==> r.error == MissingPort(StripScheme(url))
    ensures r.Success? ==>
      var rest := StripScheme(url);
      var n := |r.value.host|;
      && n < |rest|
      && rest[..n] == r.value.host
      && rest[n] == ':'
      && ':' !in rest[n + 1..]
      && r.value.port == Atoi(rest[n + 1..])
  {
    var rest := StripScheme(url);
    match SplitAtLastColon(rest)
    case None => Failure(MissingPort(rest))
    case Some((host, portText)) =>
      assert rest[..|host|] == host && rest[|host| + 1..] == portText by {
        assert rest == host + [':'] + portText;
      }
      Success(Endpoint(host, Atoi(portText)))
  }

  /* ---------------------------------------------------------------- lemmas */

  /** The split is the only one with a colon-free tail: any `h`, `t` with
      `h + ":" + t == s` and no colon in `t` is the split of `s`. */
  lemma SplitAtLastColonUnique(h: string, t: string)
    requires ':' !in t
    ensures SplitAtLastColon(h + [':'] + t) == Some((h, t))
  {
    var s := h + [':'] + t;
    assert s[|h|] == ':';
    var r := SplitAtLastColon(s);
    var h', t' := r.value.0, r.value.1;
    assert h' + [':'] + t' == s;
    assert s[|h'|] == ':';
    assert forall j :: |h'| < j < |s| ==> s[j] == t'[j - |h'| - 1];
    assert forall j :: |h| < j < |s| ==> s[j] == t[j - |h| - 1];
    assert |h| <= |h'|;
    assert |h'| <= |h|;
    assert h' == s[..|h|] == h;
    assert t' == s[|h| + 1..] == t;
  }

  /** A pattern ending in `/` that is not in `host` cannot appear in
      `host + tail` when `tail` has no `/`: it would have to end inside it. */
  lemma NoSlashPatternAcross(host: string, tail: string, pat: string)
    requires |pat| > 0 && pat[|pat| - 1] == '/'
    requires !Contains(host, pat)
    requires '/' !in tail
    ensures !Contains(host + tail, pat)
  {
    var s := host + tail;
    forall i | 0 <= i
      ensures !OccursAt(s, pat, i)
    {
      if i + |pat| <= |host| {
        assert s[i..i + |pat|] == host[i..i + |pat|];
        assert OccursAt(s, pat, i) == OccursAt(host, pat, i);
      } else if i + |pat| <= |s| {
        var last := tail[i + |pat| - 1 - |host|];
        assert s[i..i + |pat|][|pat| - 1] == last;
        assert last != '/';
      }
    }
  }

  /** `https://` followed by text without `http://` has no `http://`. */
  lemma NoHttpAfterHttps(rest: string)
    requires !Contains(rest, Http)
    ensures !Contains(Https + rest, Http)
  {
    var s := Https + rest;
    forall i | 0 <= i
      ensures !OccursAt(s, Http, i)
    {
      if i >= |Https| && i + |Http| <= |s| {
        assert s[i..i + |Http|] == rest[i - |Https|..i - |Https| + |Http|];
        assert OccursAt(s, Http, i) == OccursAt(rest, Http, i - |Https|);
      } else if i + |Http| <= |s| {
        var w := s[i..i + |Http|];
        assert w[0] == Https[i];
        assert i == 0 ==> w[4] == 's';
        assert forall k :: 1 <= k < |Https| ==> Https[k] != 'h';
      }
    }
  }

  /** A scheme at the very start is the one removed. */
  lemma StripHttpPrefix(rest: string)
    ensures StripScheme(Http + rest) == rest
  {
    var url := Http + rest;
    assert url[..|Http|] == Http;
    assert FirstOccurrence(url, Http, 0);
    assert url[|Http|..] == rest;
  }

  lemma StripHttpsPrefix(rest: string)
    requires !Contains(rest, Http)
    ensures StripScheme(Https + rest) == rest
  {
    var url := Https + rest;
    NoHttpAfterHttps(rest);
    assert url[..|Https|] == Https;
    assert FirstOccurrence(url, Https, 0);
    assert url[|Https|..] == rest;
  }

  /** Digits never contain the separators the decoder looks for. */
  lemma PortTextSeparators(p: nat)
    ensures ':' !in FormatNat(p) && '/' !in FormatNat(p)
    ensures '/' !in [':'] + FormatNat(p)
  {
    var f := FormatNat(p);
    assert forall k :: 0 <= k < |f| ==> IsDigit(f[k]);
    assert forall k :: 0 < k < |f| + 1 ==> ([':'] + f)[k] == f[k - 1];
  }

  /** Appending `":"` and a port number cannot create a scheme marker. */
  lemma HostPortHasNoScheme(host: string, p: nat, scheme: string)
    requires scheme == Http || scheme == Https
    requires !Contains(host, scheme)
    ensures !Contains(host + [':'] + FormatNat(p), scheme)
  {
    assert host + [':'] + FormatNat(p) == host + ([':'] + FormatNat(p));
    PortTextSeparators(p);
    NoSlashPatternAcross(host, [':'] + FormatNat(p), scheme);
  }

  /** Decoding `host:port` recovers the port through `atoi`. */
  lemma DecodeHostPort(host: string, p: nat)
    ensures SplitAtLastColon(host + [':'] + FormatNat(p)) == Some((host, FormatNat(p)))
    ensures Atoi(FormatNat(p)) == p
  {
    PortTextSeparators(p);
    SplitAtLastColonUnique(host, FormatNat(p));
    AtoiFormatRoundTrip(p);
  }

  /** `http://host:port` decodes to that host and port, whatever the host. */
  lemma HttpRoundTrip(host: string, p: nat)
    ensures ParseCloudUrl(Http + host + [':'] + FormatNat(p)) == Success(Endpoint(host, p))
  {
    var rest := host + [':'] + FormatNat(p);
    assert Http + host + [':'] + FormatNat(p) == Http + rest;
    StripHttpPrefix(rest);
    DecodeHostPort(host, p);
  }

  /** Every TCP port survives the round trip, and its decoded value stays in
      the range where `atoi` is defined. */
  lemma HttpPortRoundTrip(host: string, p: nat)
    requires p <= 65535
    ensures ParseCloudUrl(Http + host + [':'] + FormatNat(p)) == Success(Endpoint(host, p))
    ensures 0 <= Atoi(FormatNat(p)) < 0x8000_0000
  {
    HttpRoundTrip(host, p);
    FormatPortLength(p);
    AtoiFitsInt32(FormatNat(p));
  }

  /** `https://host:port` decodes to that host and port when the host does not
      itself contain `http://` (which would take precedence). */
  lemma HttpsRoundTrip(host: string, p: nat)
    requires !Contains(host, Http)
    ensures ParseCloudUrl(Https + host + [':'] + FormatNat(p)) == Success(Endpoint(host, p))
  {
    var rest := host + [':'] + FormatNat(p);
    assert Https + host + [':'] + FormatNat(p) == Https + rest;
    HostPortHasNoScheme(host, p, Http);
    StripHttpsPrefix(rest);
    DecodeHostPort(host, p);
  }

  /** A bare `host:port` without any scheme decodes to that host and port when
      the host mentions neither scheme. */
  lemma BareRoundTrip(host: string, p: nat)
    requires !Contains(host, Http) && !Contains(host, Https)
    ensures ParseCloudUrl(host + [':'] + FormatNat(p)) == Success(Endpoint(host, p))
  {
    var rest := host + [':'] + FormatNat(p);
    HostPortHasNoScheme(host, p, Http);
    HostPortHasNoScheme(host, p, Https);
    DecodeHostPort(host, p);
  }

  lemma NoColonInConcat(ds: string, tail: string)
    requires AllDigits(ds) && ':' !in tail
    ensures ':' !in ds + tail
  {
    assert forall k :: 0 <= k < |ds| ==> (ds + tail)[k] == ds[k];
    assert forall k :: |ds| <= k < |ds + tail| ==> (ds + tail)[k] == tail[k - |ds|];
  }

  /** `http://host:text` with a colon-free `text` decodes to that host and
      `atoi` of the text. */
  lemma HttpHostPortText(host: string, portText: string)
    requires ':' !in portText
    ensures ParseCloudUrl(Http + host + [':'] + portText) == Success(Endpoint(host, Atoi(portText)))
  {
    var rest := host + [':'] + portText;
    assert Http + host + [':'] + portText == Http + rest;
    StripHttpPrefix(rest);
    assert StripScheme(Http + rest) == rest;
    SplitAtLastColonUnique(host, portText);
    assert SplitAtLastColon(rest) == Some((host, portText));
  }

  /** Text after the port that starts with a non-digit and has no colon, such
      as a path, is ignored by `atoi`: `http://h:6041/rest` has port 6041. */
  lemma TrailingTextAfterPort(host: string, ds: string, tail: string)
    requires |ds| > 0 && AllDigits(ds)
    requires ':' !in tail && (|tail| == 0 || !IsDigit(tail[0]))
    ensures ParseCloudUrl(Http + host + [':'] + (ds + tail)) == Success(Endpoint(host, DecimalValue(ds)))
  {
    NoColonInConcat(ds, tail);
    HttpHostPortText(host, ds + tail);
    AtoiOfDigitsThenText(ds, tail);
  }

  /** Without a colon after the scheme the value is rejected, and the rejected
      text is what followed the scheme: for example `http://host`. */
  lemma MissingPortRejected(host: string)
    requires ':' !in host
    ensures ParseCloudUrl(Http + host) == Failure(MissingPort(host))
  {
    StripHttpPrefix(host);
  }
}
