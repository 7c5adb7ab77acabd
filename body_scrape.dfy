/** The request-body scrapers of the firmware's HTTP handlers: the number
    after the first ':' that follows a field name (push-weight and
    calibration handlers) and the API key between `"apiKey":"` and the next
    double quote (config handler). They scan text; they do not parse JSON. */
module BodyScrape {
  import opened Decimal
  import opened ArduinoString

  /** A character the push-weight handler's trailing loop removes. */
  predicate NotWeightEnd(c: char) {
    !IsDigit(c) && c != '.'
  }

  /** A character the calibration handler's trailing loop removes; it also
      keeps a trailing '-'. */
  predicate NotFactorEnd(c: char) {
    !IsDigit(c) && c != '.' && c != '-'
  }

  /** A character both leading loops remove. */
  predicate NotNumberStart(c: char) {
    !IsDigit(c) && c != '-' && c != '.'
  }

  function EndFilter(keepMinusAtEnd: bool): char -> bool {
    if keepMinusAtEnd then NotFactorEnd else NotWeightEnd
  }

  /** The text `num` holds after `substring(from)`, `trim()` and the two
      strip loops. */
  function ScrapedNumber(body: string, from: nat, keepMinusAtEnd: bool): string
    requires from <= |body|
  {
    DropWhile(DropWhileEnd(Trim(body[from..]), EndFilter(keepMinusAtEnd)), NotNumberStart)
  }

  /** The handlers' scraping of the number after the ':' at `colon`. */
  method ScrapeNumber(body: string, colon: nat, keepMinusAtEnd: bool) returns (num: string)
    requires colon < |body|
    ensures num == ScrapedNumber(body, colon + 1, keepMinusAtEnd)
  {
    num := body[colon + 1..];
    num := Trim(num);
    ghost var trimmed := num;
    ghost var dropEnd := EndFilter(keepMinusAtEnd);
    // Remove trailing non-number characters
    while num != [] && !IsDigit(num[|num| - 1]) && num[|num| - 1] != '.'
          && (!keepMinusAtEnd || num[|num| - 1] != '-')
      invariant num == trimmed[..|num|]
      invariant forall i :: |num| <= i < |trimmed| ==> dropEnd(trimmed[i])
      decreases |num|
    {
      num := num[..|num| - 1];
    }
    assert KeptLength(trimmed, dropEnd) == |num|;
    ghost var stripped := num;
    // Remove leading non-number characters
    while num != [] && !IsDigit(num[0]) && num[0] != '-' && num[0] != '.'
      invariant |num| <= |stripped| && num == stripped[|stripped| - |num|..]
      invariant forall i :: 0 <= i < |stripped| - |num| ==> NotNumberStart(stripped[i])
      decreases |num|
    {
      num := num[1..];
    }
    assert PrefixLength(stripped, NotNumberStart) == |stripped| - |num|;
  }

  /** After both loops the text is empty, or starts with a digit, '-' or '.'
      and ends in a digit or '.' (or, for the calibration factor, '-'). */
  lemma ScrapedNumberShape(body: string, from: nat, keepMinusAtEnd: bool)
    requires from <= |body|
    ensures var r := ScrapedNumber(body, from, keepMinusAtEnd);
            r == [] || (!NotNumberStart(r[0]) && !EndFilter(keepMinusAtEnd)(r[|r| - 1]))
  {
    var u := DropWhileEnd(Trim(body[from..]), EndFilter(keepMinusAtEnd));
    var r := DropWhile(u, NotNumberStart);
    if u != [] {
      assert !NotNumberStart(u[|u| - 1]);
      assert r != [];
      assert r[|r| - 1] == u[|u| - 1];
    }
  }

  /** Dropping a suffix made only of `p` characters from text whose last
      character is not one gives the text back. */
  lemma {:induction false} DropWhileEndAppend(s: string, tail: string, p: char -> bool)
    requires forall i :: 0 <= i < |tail| ==> p(tail[i])
    requires s == [] || !p(s[|s| - 1])
    ensures DropWhileEnd(s + tail, p) == s
    decreases |tail|
  {
    if tail == [] {
      assert s + tail == s;
    } else {
      assert (s + tail)[..|s + tail| - 1] == s + tail[..|tail| - 1];
      DropWhileEndAppend(s, tail[..|tail| - 1], p);
    }
  }

  /** A whole number written in canonical digits and followed only by JSON
      punctuation (`123}`, `123,"x"`) is scraped exactly. */
  lemma ScrapesCanonicalNumber(n: nat, close: string, keepMinusAtEnd: bool)
    requires forall i :: 0 <= i < |close| ==> NotFactorEnd(close[i]) && !IsSpace(close[i])
    ensures ScrapedNumber(DecString(n) + close, 0, keepMinusAtEnd) == DecString(n)
  {
    var d := DecString(n);
    var body := d + close;
    DecStringRoundTrip(n);
    DecStringCanonical(n);
    assert body[0..] == body;
    TrimUnchanged(body);
    var p := EndFilter(keepMinusAtEnd);
    assert forall i :: 0 <= i < |close| ==> p(close[i]);
    DropWhileEndAppend(d, close, p);
    assert DropWhile(d, NotNumberStart) == d;
  }

  /** The text the config handler looks for before the key. */
  const ApiKeyMarker: string := "\"apiKey\":\""

  /** The config handler's extraction: from just past the marker (position
      9 when the marker is missing, since `indexOf` gives -1) up to the next
      double quote, or to the end when there is none (`indexOf` gives -1,
      which `substring`'s unsigned parameter reads as the largest value). */
  function ExtractApiKey(body: string): string {
    var keyStart := IndexOf(body, ApiKeyMarker, 0) + |ApiKeyMarker|;
    var keyEnd := IndexOf(body, "\"", keyStart);
    Substring(body, keyStart, ToUnsigned(keyEnd))
  }

  /** Whatever the body, the stored key never contains a double quote. */
  lemma ExtractedKeyHasNoQuote(body: string)
    requires |body| < 0x1_0000_0000 - |ApiKeyMarker|
    ensures forall i :: 0 <= i < |ExtractApiKey(body)| ==> ExtractApiKey(body)[i] != '"'
  {
    var keyStart := IndexOf(body, ApiKeyMarker, 0) + |ApiKeyMarker|;
    var keyEnd := IndexOf(body, "\"", keyStart);
    var r := ExtractApiKey(body);
    if keyStart < |body| {
      var end := if keyEnd == -1 then |body| else keyEnd;
      assert r == body[keyStart..end];
      NoCharBetween(body, '"', keyStart, end);
      assert forall i :: 0 <= i < |r| ==> r[i] == body[keyStart + i];
    }
  }

  /** The body the configuration page posts, `{"apiKey":"<key>"}`, stores
      exactly the key, provided the key has no double quote in it. */
  lemma ApiKeyRoundTrip(key: string)
    requires forall i :: 0 <= i < |key| ==> key[i] != '"'
    requires |key| < 0x1_0000_0000 - 16
    ensures ExtractApiKey("{" + ApiKeyMarker + key + "\"}") == key
  {
    var body := "{" + ApiKeyMarker + key + "\"}";
    assert !OccursAt(body, ApiKeyMarker, 0) by {
      assert body[0] == '{';
    }
    assert body[1..1 + |ApiKeyMarker|] == ApiKeyMarker;
    IndexOfAt(body, ApiKeyMarker, 0, 1);
    var keyStart := 1 + |ApiKeyMarker|;
    var keyEnd := keyStart + |key|;
    assert body[keyEnd] == '"';
    forall i | keyStart <= i < keyEnd
      ensures body[i] != '"'
    {
      assert body[i] == key[i - keyStart];
    }
    IndexOfCharAt(body, '"', keyStart, keyEnd);
    assert ToUnsigned(keyEnd) == keyEnd;
    assert body[keyStart..keyEnd] == key;
  }
}
