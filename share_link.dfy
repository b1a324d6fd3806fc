/** The WhatsApp share link of a quotation: a five-line message and a normalised phone number. */
module ShareLink {
  import opened Wrappers

  /** A stored quotation; `productDetails` and `websitePrice` are nullable columns. */
  datatype Quotation = Quotation(
    clientName: string,
    clientPhone: string,
    productName: string,
    productDetails: Option<string>,
    websitePrice: Option<real>)

  // ---------------------------------------------------------------- phone normalisation

  /** Python's `str.isspace`, the character set `str.strip()` removes. */
  predicate IsSpace(c: char) {
    || '\U{9}' <= c <= '\U{D}'
    || '\U{1C}' <= c <= '\U{20}'
    || c == '\U{85}' || c == '\U{A0}' || c == '\U{1680}'
    || '\U{2000}' <= c <= '\U{200A}'
    || c == '\U{2028}' || c == '\U{2029}' || c == '\U{202F}' || c == '\U{205F}' || c == '\U{3000}'
  }

  predicate IsDigit(c: char) {
    '0' <= c <= '9'
  }

  predicate IsNotBlank(c: char) {
    c != ' '
  }

  /** Leading whitespace removed: what is left is a suffix that does not start with whitespace. */
  function TrimStart(s: string): (r: string)
    ensures |r| <= |s| && r == s[|s| - |r|..]
    ensures forall k :: 0 <= k < |s| - |r| ==> IsSpace(s[k])
    ensures r == [] || !IsSpace(r[0])
    decreases |s|
  {
    if |s| > 0 && IsSpace(s[0]) then TrimStart(s[1..]) else s
  }

  /** Trailing whitespace removed: what is left is a prefix that does not end in whitespace. */
  function TrimEnd(s: string): (r: string)
    ensures |r| <= |s| && r == s[..|r|]
    ensures forall k :: |r| <= k < |s| ==> IsSpace(s[k])
    ensures r == [] || !IsSpace(r[|r| - 1])
    decreases |s|
  {
    if |s| > 0 && IsSpace(s[|s| - 1]) then TrimEnd(s[..|s| - 1]) else s
  }

  /** Where `str.strip()` starts cutting its slice out of `s`: after the leading whitespace. */
  function StripStart(s: string): (i: nat)
    ensures i <= |s|
  {
    |s| - |TrimStart(s)|
  }

  /** `str.strip()`: the slice of `s` that starts at its first non-whitespace character and
      ends at its last one; everything cut off on either side is whitespace. */
  function Strip(s: string): (r: string)
    ensures StripStart(s) + |r| <= |s|
    ensures r == s[StripStart(s)..StripStart(s) + |r|]
    ensures forall k :: 0 <= k < StripStart(s) ==> IsSpace(s[k])
    ensures forall k :: StripStart(s) + |r| <= k < |s| ==> IsSpace(s[k])
    ensures r == [] || (!IsSpace(r[0]) && !IsSpace(r[|r| - 1]))
  {
    StripSlice(s);
    TrimEnd(TrimStart(s))
  }

  /** The trailing whitespace `TrimEnd` cuts from the trimmed suffix is trailing whitespace of `s`. */
  lemma StripSlice(s: string)
    ensures var t := TrimStart(s); var i := StripStart(s);
      t == s[i..] && forall k :: i + |TrimEnd(t)| <= k < |s| ==> IsSpace(s[k])
  {
    var t := TrimStart(s);
    TailShift(IsSpace, s, StripStart(s), |TrimEnd(t)|);
  }

  /** A property of the tail of the suffix `s[i..]` from position `n` on is one of `s` from `i + n` on. */
  lemma TailShift(p: char -> bool, s: string, i: nat, n: nat)
    requires i + n <= |s|
    requires forall k :: n <= k < |s| - i ==> p(s[i..][k])
    ensures forall k :: i + n <= k < |s| ==> p(s[k])
  {
    forall k | i + n <= k < |s| ensures p(s[k]) {
      assert s[k] == s[i..][k - i];
    }
  }

  /** The characters of `s` that satisfy `p`, in order (a comprehension `join`, or `replace`
      of a single character by nothing). */
  function Filter(p: char -> bool, s: string): (r: string)
    ensures |r| <= |s|
    decreases |s|
  {
    if s == [] then [] else (if p(s[0]) then [s[0]] else []) + Filter(p, s[1..])
  }

  /** Every character the filter keeps satisfies `p`. */
  lemma {:induction false} FilterSound(p: char -> bool, s: string)
    ensures forall k :: 0 <= k < |Filter(p, s)| ==> p(Filter(p, s)[k])
    decreases |s|
  {
    if s != [] {
      FilterSound(p, s[1..]);
    }
  }

  /** Filtering distributes over concatenation. */
  lemma {:induction false} FilterConcat(p: char -> bool, a: string, b: string)
    ensures Filter(p, a + b) == Filter(p, a) + Filter(p, b)
    decreases |a|
  {
    if a == [] {
      assert a + b == b;
    } else {
      var head := if p(a[0]) then [a[0]] else [];
      assert (a + b)[0] == a[0] && (a + b)[1..] == a[1..] + b;
      FilterConcat(p, a[1..], b);
      calc {
        Filter(p, a + b);
        head + Filter(p, a[1..] + b);
        head + (Filter(p, a[1..]) + Filter(p, b));
        (head + Filter(p, a[1..])) + Filter(p, b);
        Filter(p, a) + Filter(p, b);
      }
    }
  }

  /** Filtering keeps a string whose every character passes. */
  lemma {:induction false} FilterKeepsAll(p: char -> bool, s: string)
    requires forall k :: 0 <= k < |s| ==> p(s[k])
    ensures Filter(p, s) == s
    decreases |s|
  {
    if s != [] {
      FilterKeepsAll(p, s[1..]);
    }
  }

  /** The ASCII digits of the raw phone, in order. */
  function Digits(s: string): string {
    Filter(IsDigit, s)
  }

  /** Leading whitespace holds no digit. */
  lemma {:induction false} DigitsIgnoreTrimStart(s: string)
    ensures Digits(TrimStart(s)) == Digits(s)
    decreases |s|
  {
    if |s| > 0 && IsSpace(s[0]) {
      DigitsIgnoreTrimStart(s[1..]);
    }
  }

  /** Trailing whitespace holds no digit. */
  lemma {:induction false} DigitsIgnoreTrimEnd(s: string)
    ensures Digits(TrimEnd(s)) == Digits(s)
    decreases |s|
  {
    if |s| > 0 && IsSpace(s[|s| - 1]) {
      var init := s[..|s| - 1];
      DigitsIgnoreTrimEnd(init);
      assert s == init + [s[|s| - 1]];
      FilterConcat(IsDigit, init, [s[|s| - 1]]);
    }
  }

  /** Surrounding whitespace holds no digit, so stripping never changes the digits. */
  lemma DigitsIgnoreStrip(s: string)
    ensures Digits(Strip(s)) == Digits(s)
  {
    DigitsIgnoreTrimStart(s);
    DigitsIgnoreTrimEnd(TrimStart(s));
  }

  /** The country code prefixed to a ten-digit national number. */
  const CountryCode: string := "91"

  /** The phone, once stripped, starts with `+`. */
  predicate IsInternational(raw: string) {
    var p := Strip(raw);
    |p| > 0 && p[0] == '+'
  }

  /** The phone number as it appears in the link. With a leading `+` (after stripping) it
      is the rest with spaces removed and every other character kept; otherwise it is the
      digits of the input, preceded by the country code when there are exactly ten. */
  function NormalizePhone(raw: string): (r: string)
    ensures IsInternational(raw) ==> r == Filter(IsNotBlank, Strip(raw)[1..]) && ' ' !in r
    ensures !IsInternational(raw) ==>
              r == (if |Digits(raw)| == 10 then CountryCode + Digits(raw) else Digits(raw))
    ensures !IsInternational(raw) ==> forall k :: 0 <= k < |r| ==> IsDigit(r[k])
  {
    var phone := Strip(raw);
    if |phone| > 0 && phone[0] == '+' then
      FilterSound(IsNotBlank, phone[1..]);
      Filter(IsNotBlank, phone[1..])
    else
      var digits := Filter(IsDigit, phone);
      DigitsIgnoreStrip(raw);
      FilterSound(IsDigit, phone);
      if |digits| == 10 then CountryCode + digits else digits
  }

  /** A string of digits only is its own strip and does not start with `+`. */
  lemma AllDigitsStrip(s: string)
    requires forall k :: 0 <= k < |s| ==> IsDigit(s[k])
    ensures Strip(s) == s && !IsInternational(s)
  {
    if s != [] {
      assert !IsSpace(s[0]) && !IsSpace(s[|s| - 1]);
      StripKeeps(s);
    }
  }

  /** A number made of digits only takes the national path on itself: ten digits such as
      9876543210 get the country code in front (919876543210), any other count is kept. */
  lemma NationalOfDigits(s: string)
    requires forall k :: 0 <= k < |s| ==> IsDigit(s[k])
    ensures NormalizePhone(s) == if |s| == 10 then CountryCode + s else s
  {
    AllDigitsStrip(s);
    FilterKeepsAll(IsDigit, s);
  }

  /** The national path is idempotent: a number it produced is normalised to itself. */
  lemma NationalNormalizeIdempotent(raw: string)
    requires !IsInternational(raw)
    ensures NormalizePhone(NormalizePhone(raw)) == NormalizePhone(raw)
  {
    var r := NormalizePhone(raw);
    NationalOfDigits(r);
    assert |r| != 10 by {
      if |Digits(raw)| == 10 {
        assert |r| == |CountryCode| + 10;
      }
    }
  }

  /** A string without whitespace at its ends is its own strip. */
  lemma StripKeeps(s: string)
    requires |s| > 0 && !IsSpace(s[0]) && !IsSpace(s[|s| - 1])
    ensures Strip(s) == s
  {
    assert TrimStart(s) == s;
  }

  /** A number starting with `+` and not ending in whitespace takes the international path. */
  lemma InternationalOf(s: string)
    requires |s| > 0 && s[0] == '+' && !IsSpace(s[|s| - 1])
    ensures NormalizePhone(s) == Filter(IsNotBlank, s[1..])
  {
    StripKeeps(s);
  }

  /** An international number written in blank-separated groups, such as +1 415 555 0100,
      loses its `+` and its blanks (14155550100). */
  lemma InternationalExample(country: string, area: string, exchange: string, line: string)
    requires ' ' !in country && ' ' !in area && ' ' !in exchange && ' ' !in line
    requires |line| > 0 && !IsSpace(line[|line| - 1])
    ensures NormalizePhone("+" + country + " " + area + " " + exchange + " " + line)
         == country + area + exchange + line
  {
    var groups := country + " " + area + " " + exchange + " " + line;
    var intl := "+" + groups;
    assert intl == "+" + country + " " + area + " " + exchange + " " + line;
    assert intl[|intl| - 1] == line[|line| - 1];
    InternationalOf(intl);
    assert intl[1..] == groups;
    BlankGroups(country, area, exchange, line);
  }

  /** Four blank-separated groups with their blanks dropped run together. */
  lemma BlankGroups(country: string, area: string, exchange: string, line: string)
    requires ' ' !in country && ' ' !in area && ' ' !in exchange && ' ' !in line
    ensures Filter(IsNotBlank, country + " " + area + " " + exchange + " " + line)
         == country + area + exchange + line
  {
    FilterKeepsAll(IsNotBlank, country);
    DropBlank(country, area);
    DropBlank(country + " " + area, exchange);
    DropBlank(country + " " + area + " " + exchange, line);
  }

  /** Dropping blanks from `a + " " + b`, where `b` holds none, appends `b` to what is left of `a`. */
  lemma DropBlank(a: string, b: string)
    requires ' ' !in b
    ensures Filter(IsNotBlank, a + " " + b) == Filter(IsNotBlank, a) + b
  {
    var blank := " ";
    var kept := Filter(IsNotBlank, a);
    FilterConcat(IsNotBlank, a + blank, b);
    FilterConcat(IsNotBlank, a, blank);
    assert Filter(IsNotBlank, blank) == [];
    FilterKeepsAll(IsNotBlank, b);
    assert Filter(IsNotBlank, a + blank) == kept;
  }

  // ---------------------------------------------------------------- message text

  /** The placeholder for absent or empty product details (an em dash). */
  const Placeholder: string := "\U{2014}"

  /** `q.product_details or '—'`. */
  function DetailsText(details: Option<string>): (r: string)
    ensures details == None || details == Some("") ==> r == Placeholder
    ensures details.Some? && details.value != "" ==> r == details.value
  {
    match details
    case Some(d) => if d == "" then Placeholder else d
    case None => Placeholder
  }

  /** The fixed text of the message lines. */
  const Greeting: string := "Hello "
  const Intro: string := "Here is your quotation:"
  const ProductLabel: string := "Product: "
  const DetailsLabel: string := "Details: "
  const PriceLabel: string := "Price: "

  /** The five lines of the message; `priceText` renders the price as an f-string does
      (Python's `str` of a float, or `None` for a null price). */
  function MessageLines(q: Quotation, priceText: Option<real> -> string): (lines: seq<string>)
    ensures |lines| == 5
  {
    [ Greeting + q.clientName + ",",
      Intro,
      ProductLabel + q.productName,
      DetailsLabel + DetailsText(q.productDetails),
      PriceLabel + priceText(q.websitePrice) ]
  }

  /** `line.replace('\n', ' ')`: character by character, a newline becomes a space and
      every other character stays where it was; no newline is left. */
  function Flatten(line: string): (r: string)
    ensures |r| == |line| && '\n' !in r
  {
    seq(|line|, k requires 0 <= k < |line| => if line[k] == '\n' then ' ' else line[k])
  }

  /** Flattening distributes over concatenation. */
  lemma FlattenConcat(a: string, b: string)
    ensures Flatten(a + b) == Flatten(a) + Flatten(b)
  {
    assert forall k :: 0 <= k < |a + b| ==> Flatten(a + b)[k] == (Flatten(a) + Flatten(b))[k];
  }

  /** Flattening leaves a line without newlines unchanged. */
  lemma FlattenKeeps(s: string)
    requires '\n' !in s
    ensures Flatten(s) == s
  {
    assert forall k :: 0 <= k < |s| ==> Flatten(s)[k] == s[k];
  }

  /** `sep.join(parts)`: every character of the result comes from the separator or a part. */
  function Join(parts: seq<string>, sep: string): (r: string)
    ensures forall c :: c in r ==> c in sep || exists k :: 0 <= k < |parts| && c in parts[k]
    decreases |parts|
  {
    if |parts| == 0 then ""
    else if |parts| == 1 then parts[0]
    else parts[0] + sep + Join(parts[1..], sep)
  }

  /** The percent-encoded newline between message lines. */
  const LineBreak: string := "%0A"

  /** Every line flattened. */
  function FlattenAll(lines: seq<string>): (r: seq<string>)
    ensures |r| == |lines| && forall k :: 0 <= k < |lines| ==> r[k] == Flatten(lines[k])
  {
    seq(|lines|, k requires 0 <= k < |lines| => Flatten(lines[k]))
  }

  /** The message: the five lines with their newlines flattened, joined by `%0A`;
      it holds no raw newline. */
  function MessageText(q: Quotation, priceText: Option<real> -> string): (text: string)
    ensures '\n' !in text
  {
    Join(FlattenAll(MessageLines(q, priceText)), LineBreak)
  }

  /** Joining five parts, written out. */
  lemma JoinFive(parts: seq<string>, sep: string)
    requires |parts| == 5
    ensures Join(parts, sep) == parts[0] + sep + parts[1] + sep + parts[2] + sep + parts[3] + sep + parts[4]
  {
    var p1, p2, p3, p4 := parts[1..], parts[2..], parts[3..], parts[4..];
    assert p1[1..] == p2 && p2[1..] == p3 && p3[1..] == p4;
    assert Join(p4, sep) == parts[4];
    assert Join(p3, sep) == parts[3] + sep + parts[4];
    assert Join(p2, sep) == parts[2] + sep + (parts[3] + sep + parts[4]);
    assert Join(p1, sep) == parts[1] + sep + (parts[2] + sep + (parts[3] + sep + parts[4]));
    assert Join(parts, sep) == parts[0] + sep + (parts[1] + sep + (parts[2] + sep + (parts[3] + sep + parts[4])));
  }

  /** The fixed text of the message holds no newline, so flattening keeps it. */
  lemma FixedTextIsFlat()
    ensures Flatten(Greeting) == Greeting && Flatten(",") == ","
    ensures Flatten(Intro) == Intro && Flatten(ProductLabel) == ProductLabel
    ensures Flatten(DetailsLabel) == DetailsLabel && Flatten(PriceLabel) == PriceLabel
  {
    FlattenKeeps(Greeting);
    FlattenKeeps(",");
    FlattenKeeps(Intro);
    FlattenKeeps(ProductLabel);
    FlattenKeeps(DetailsLabel);
    FlattenKeeps(PriceLabel);
  }

  /** The five lines once flattened: only newlines inside the fields change. */
  lemma FlattenedLines(q: Quotation, priceText: Option<real> -> string)
    ensures var flat := FlattenAll(MessageLines(q, priceText));
            && flat[0] == Greeting + Flatten(q.clientName) + ","
            && flat[1] == Intro
            && flat[2] == ProductLabel + Flatten(q.productName)
            && flat[3] == DetailsLabel + Flatten(DetailsText(q.productDetails))
            && flat[4] == PriceLabel + Flatten(priceText(q.websitePrice))
  {
    FixedTextIsFlat();
    FlattenConcat(Greeting + q.clientName, ",");
    FlattenConcat(Greeting, q.clientName);
    FlattenConcat(ProductLabel, q.productName);
    FlattenConcat(DetailsLabel, DetailsText(q.productDetails));
    FlattenConcat(PriceLabel, priceText(q.websitePrice));
  }

  /** The message spelled out in full, field by field: only newlines inside the fields
      change, and the lines are separated by `%0A`. */
  lemma MessageTextLayout(q: Quotation, priceText: Option<real> -> string)
    ensures MessageText(q, priceText)
         == Greeting + Flatten(q.clientName) + "," + LineBreak
            + Intro + LineBreak
            + ProductLabel + Flatten(q.productName) + LineBreak
            + DetailsLabel + Flatten(DetailsText(q.productDetails)) + LineBreak
            + PriceLabel + Flatten(priceText(q.websitePrice))
  {
    var flat := FlattenAll(MessageLines(q, priceText));
    JoinFive(flat, LineBreak);
    FlattenedLines(q, priceText);
  }

  /** The messaging service's link prefix. */
  const BaseUrl: string := "https://wa.me/"

  /** The redirect target of `share_quotation`. */
  function ShareUrl(q: Quotation, priceText: Option<real> -> string): string {
    BaseUrl + NormalizePhone(q.clientPhone) + "?text=" + MessageText(q, priceText)
  }

  /** The position of the first `c` in `s`, or `|s|` when there is none. */
  function FirstIndex(s: string, c: char): (k: nat)
    ensures k <= |s| && c !in s[..k]
    ensures k < |s| ==> s[k] == c
    decreases |s|
  {
    if s == [] then 0
    else if s[0] == c then 0
    else
      assert s[..1 + FirstIndex(s[1..], c)] == [s[0]] + s[1..][..FirstIndex(s[1..], c)];
      1 + FirstIndex(s[1..], c)
  }

  /** When the phone holds no `?` (always so on the national path), the link reads back
      unambiguously: the path ends at its first `?`, giving the phone, and the query is
      `text=` followed by the message. */
  lemma ShareUrlReadsBack(q: Quotation, priceText: Option<real> -> string)
    requires '?' !in NormalizePhone(q.clientPhone) || !IsInternational(q.clientPhone)
    ensures var url := ShareUrl(q, priceText);
            var phone := NormalizePhone(q.clientPhone);
            var k := FirstIndex(url, '?');
            k == |BaseUrl| + |phone| && url[..k] == BaseUrl + phone
            && url[k + 1..] == "text=" + MessageText(q, priceText)
  {
    var phone := NormalizePhone(q.clientPhone);
    var text := MessageText(q, priceText);
    NoQueryInPhone(q.clientPhone);
    assert '?' !in BaseUrl;
    assert '?' !in BaseUrl + phone;
    LinkSplits(BaseUrl + phone, text);
    assert ShareUrl(q, priceText) == BaseUrl + phone + "?text=" + text;
  }

  /** A national number is all digits, so it never holds a `?`. */
  lemma NoQueryInPhone(raw: string)
    requires '?' !in NormalizePhone(raw) || !IsInternational(raw)
    ensures '?' !in NormalizePhone(raw)
  {
    var phone := NormalizePhone(raw);
    if !IsInternational(raw) {
      assert forall j :: 0 <= j < |phone| ==> IsDigit(phone[j]);
    }
  }

  /** A link `head?text=body` whose head holds no `?` splits at the end of the head. */
  lemma LinkSplits(head: string, text: string)
    requires '?' !in head
    ensures var url := head + "?text=" + text;
            var k := FirstIndex(url, '?');
            k == |head| && url[..k] == head && url[k + 1..] == "text=" + text
  {
    var tail := "?text=" + text;
    assert head + "?text=" + text == head + tail;
    FirstIndexSkips(head, tail, '?');
    assert (head + tail)[..|head|] == head;
    assert (head + tail)[|head| + 1..] == tail[1..];
  }

  /** The first `c` of `a + b` lies in `b` when `a` holds none. */
  lemma {:induction false} FirstIndexSkips(a: string, b: string, c: char)
    requires c !in a && |b| > 0 && b[0] == c
    ensures FirstIndex(a + b, c) == |a|
    decreases |a|
  {
    if a != [] {
      assert (a + b)[1..] == a[1..] + b;
      FirstIndexSkips(a[1..], b, c);
    }
  }
}
