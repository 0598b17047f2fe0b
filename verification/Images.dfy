/** Image references of the OpenAI wire format: plain URLs and inline data URLs. */
module Images {
  import opened Int64

  datatype ImageSource = Url(url: string) | Inline(mediaType: string, data: string)

  const DATA_PREFIX := "data:"
  const BASE64 := ";base64,"

  /** Where a character first is, or the length. */
  function IndexOf(s: string, c: char): (i: nat)
    ensures i <= |s| && (i < |s| ==> s[i] == c)
  {
    if s == "" || s[0] == c then 0 else 1 + IndexOf(s[1..], c)
  }

  function ParseImageUrl(url: string): ImageSource {
    if DATA_PREFIX <= url && IndexOf(url, ',') < |url| then
      var i := IndexOf(url, ',');
      CommaAfterPrefix(url);
      var meta := url[5..i];
      Inline(meta[..IndexOf(meta, ';')], url[i + 1..])
    else Url(url)
  }

  function ImageUrl(source: ImageSource): string {
    match source
    case Url(url) => url
    case Inline(mediaType, data) => DATA_PREFIX + mediaType + BASE64 + data
  }

  lemma {:induction false} FirstIndex(s: string, c: char, i: nat)
    requires i <= |s| && (forall j | 0 <= j < i :: s[j] != c) && (i < |s| ==> s[i] == c)
    ensures IndexOf(s, c) == i
  {
    if i > 0 { FirstIndex(s[1..], c, i - 1); }
  }

  lemma {:induction false} NoneBefore(s: string, c: char)
    ensures forall j | 0 <= j < IndexOf(s, c) :: s[j] != c
  {
    if s != "" && s[0] != c {
      NoneBefore(s[1..], c);
      assert forall j | 0 < j < |s| :: s[j] == s[1..][j - 1];
    }
  }

  lemma CommaAfterPrefix(url: string)
    requires DATA_PREFIX <= url && IndexOf(url, ',') < |url|
    ensures IndexOf(url, ',') >= 5
  {
    assert forall j | 0 <= j < 5 :: url[j] == DATA_PREFIX[j];
  }

  /** A media type as the parser cuts it out. */
  predicate IsMediaType(mediaType: string) { ',' !in mediaType && ';' !in mediaType }

  lemma ParsedMediaType(url: string)
    ensures var s := ParseImageUrl(url); s.Inline? ==> IsMediaType(s.mediaType)
  {
    if DATA_PREFIX <= url && IndexOf(url, ',') < |url| {
      var i := IndexOf(url, ',');
      CommaAfterPrefix(url);
      var meta := url[5..i];
      NoneBefore(url, ',');
      NoneBefore(meta, ';');
      assert forall j | 0 <= j < |meta| :: meta[j] == url[j + 5];
    }
  }

  lemma InlineComma(mediaType: string, data: string)
    requires ',' !in mediaType
    ensures IndexOf(DATA_PREFIX + mediaType + BASE64 + data, ',') == 5 + |mediaType| + 7
  {
    var url := DATA_PREFIX + mediaType + BASE64 + data;
    var i := 5 + |mediaType| + 7;
    forall j | 0 <= j < i ensures url[j] != ',' {
      if j < 5 {
        assert url[j] == DATA_PREFIX[j];
      } else if j < 5 + |mediaType| {
        assert url[j] == mediaType[j - 5];
      } else {
        assert url[j] == BASE64[j - 5 - |mediaType|];
      }
    }
    assert url[i] == BASE64[7];
    FirstIndex(url, ',', i);
  }

  /** An inline image survives being written and read again. */
  lemma InlineSurvives(mediaType: string, data: string)
    requires IsMediaType(mediaType)
    ensures ParseImageUrl(ImageUrl(Inline(mediaType, data))) == Inline(mediaType, data)
  {
    var url := DATA_PREFIX + mediaType + BASE64 + data;
    InlineComma(mediaType, data);
    var i := 5 + |mediaType| + 7;
    var meta := url[5..i];
    assert meta == mediaType + ";base64";
    FirstIndex(meta, ';', |mediaType|);
    assert url[i + 1..] == data && meta[..|mediaType|] == mediaType;
  }

  /** What was parsed once is parsed the same again. */
  lemma SourceSurvives(url: string)
    ensures ParseImageUrl(ImageUrl(ParseImageUrl(url))) == ParseImageUrl(url)
  {
    var s := ParseImageUrl(url);
    ParsedMediaType(url);
    if s.Inline? { InlineSurvives(s.mediaType, s.data); }
  }

  predicate IsInline(url: string) { DATA_PREFIX <= url && IndexOf(url, ',') < |url| }

  /** What stands between the media type and the comma. */
  function Parameters(url: string): string
    requires IsInline(url)
  {
    CommaAfterPrefix(url);
    var meta := url[5..IndexOf(url, ',')];
    meta[IndexOf(meta, ';')..]
  }

  lemma CutInFour(s: string, a: nat, b: nat, c: nat)
    requires a <= b <= c < |s|
    ensures s == s[..a] + s[a..b] + (s[b..c] + [s[c]]) + s[c + 1..]
  {
  }

  lemma SliceTwice(s: string, a: nat, b: nat, k: nat)
    requires a <= b <= |s| && k <= b - a
    ensures s[a..b][..k] == s[a..a + k] && s[a..b][k..] == s[a + k..b]
  {
  }

  lemma Recut(url: string)
    requires IsInline(url)
    ensures var s, i := ParseImageUrl(url), IndexOf(url, ',');
      s.Inline? && i == 5 + |s.mediaType| + |Parameters(url)| && url == DATA_PREFIX + s.mediaType + (Parameters(url) + ",") + s.data
  {
    var i := IndexOf(url, ',');
    CommaAfterPrefix(url);
    var meta := url[5..i];
    var k := IndexOf(meta, ';');
    SliceTwice(url, 5, i, k);
    CutInFour(url, 5, 5 + k, i);
    assert url[..5] == DATA_PREFIX && [url[i]] == ",";
  }

  /** The text of a reference survives exactly when it is no inline reference or its parameters are just the base64
      marker: a data URL in another encoding is rewritten as if it were base64. */
  lemma UrlSurvivesIff(url: string)
    ensures ImageUrl(ParseImageUrl(url)) == url <==> !IsInline(url) || Parameters(url) == ";base64"
  {
    if IsInline(url) {
      var s := ParseImageUrl(url);
      Recut(url);
      ParsedMediaType(url);
      var built := ImageUrl(s);
      assert ";base64" + "," == BASE64;
      if built == url {
        InlineComma(s.mediaType, s.data);
        var from, to := 5 + |s.mediaType|, 5 + |s.mediaType| + 7;
        assert url[from..to] == Parameters(url);
        assert built[from..to] == ";base64";
      }
    }
  }

  /** Every data URL without parameters is such a reference: its text comes back as if it were base64. */
  lemma PlainDataUrlIsRewritten(mediaType: string, text: string)
    requires IsMediaType(mediaType)
    ensures var url := DATA_PREFIX + mediaType + "," + text;
      ImageUrl(ParseImageUrl(url)) == DATA_PREFIX + mediaType + ";base64," + text != url
  {
    var url := DATA_PREFIX + mediaType + "," + text;
    var i := 5 + |mediaType|;
    forall j | 0 <= j < i ensures url[j] != ',' {
      assert url[j] == if j < 5 then DATA_PREFIX[j] else mediaType[j - 5];
    }
    FirstIndex(url, ',', i);
    var meta := url[5..i];
    assert meta == mediaType;
    FirstIndex(meta, ';', |meta|);
    assert url[i + 1..] == text;
    assert |DATA_PREFIX + mediaType + ";base64," + text| > |url|;
  }
}
