/**
 * The reading-time estimate shown on a post page (src/utils/readTime.ts).
 *
 * Every content block is scored by the number of tokens that
 * `String.prototype.split(/\s/g)` yields for its heading and for the HTML the
 * rich-text renderer makes of its body. Only the score of the first block is
 * used: it becomes `Math.ceil(score / 200 + 3)` minutes, rendered as "<n> min".
 */
module ReadTime {
  import opened Wrappers

  // ---------------------------------------------------------------------------
  // Tokenising with split(/\s/g)
  // ---------------------------------------------------------------------------

  /** The characters the ECMAScript class `\s` matches: WhiteSpace and LineTerminator. */
  predicate IsWhitespace(c: char)
  {
    c == '\t' || c == '\n' || c == '\U{000B}' || c == '\U{000C}' || c == '\r' || c == ' ' ||
    c == '\U{00A0}' || c == '\U{1680}' || ('\U{2000}' <= c <= '\U{200A}') ||
    c == '\U{2028}' || c == '\U{2029}' || c == '\U{202F}' || c == '\U{205F}' ||
    c == '\U{3000}' || c == '\U{FEFF}'
  }

  predicate HasNoWhitespace(s: string)
  {
    forall i :: 0 <= i < |s| ==> !IsWhitespace(s[i])
  }

  /** The whitespace characters of `s`, in order: the separators `split` removes. */
  function Separators(s: string): (seps: string)
    ensures |seps| <= |s|
    ensures forall i :: 0 <= i < |seps| ==> IsWhitespace(seps[i])
  {
    if s == [] then []
    else if IsWhitespace(s[0]) then [s[0]] + Separators(s[1..])
    else Separators(s[1..])
  }

  function WhitespaceCount(s: string): nat
  {
    |Separators(s)|
  }

  /**
   * `s.split(/\s/g)`: the pieces of `s` between single whitespace characters.
   * The pattern never matches the empty string, so every whitespace character
   * ends one piece and starts the next; leading, trailing and adjacent
   * whitespace leaves empty pieces, and "" splits into [""].
   */
  function Split(s: string): (pieces: seq<string>)
    ensures |pieces| >= 1
    ensures forall k :: 0 <= k < |pieces| ==> HasNoWhitespace(pieces[k])
    decreases |s|
  {
    if s == [] then [""]
    else
      var rest := Split(s[1..]);
      if IsWhitespace(s[0]) then [""] + rest
      else [[s[0]] + rest[0]] + rest[1..]
  }

  /** Puts the separators back between the pieces: the inverse of `Split`. */
  function Join(pieces: seq<string>, seps: string): string
    requires |pieces| == |seps| + 1
    decreases |seps|
  {
    if seps == [] then pieces[0]
    else pieces[0] + [seps[0]] + Join(pieces[1..], seps[1..])
  }

  /** Helper: a character glued to the front of the first piece comes first in the join. */
  lemma JoinGlueFirst(c: char, pieces: seq<string>, seps: string)
    requires |pieces| == |seps| + 1
    ensures Join([[c] + pieces[0]] + pieces[1..], seps) == [c] + Join(pieces, seps)
  {
    var glued := [[c] + pieces[0]] + pieces[1..];
    assert glued[0] == [c] + pieces[0];
    if seps != [] {
      assert glued[1..] == pieces[1..];
      var tail := Join(pieces[1..], seps[1..]);
      assert Join(glued, seps) == ([c] + pieces[0]) + [seps[0]] + tail;
      assert Join(pieces, seps) == pieces[0] + [seps[0]] + tail;
    }
  }

  /** `split` loses nothing but the separators: joining the pieces with them gives `s` back. */
  lemma {:induction false} SplitJoinRoundTrip(s: string)
    ensures |Split(s)| == |Separators(s)| + 1
    ensures Join(Split(s), Separators(s)) == s
    decreases |s|
  {
    if s != [] {
      var rest := Split(s[1..]);
      SplitJoinRoundTrip(s[1..]);
      var seps := Separators(s[1..]);
      assert [s[0]] + s[1..] == s;
      if IsWhitespace(s[0]) {
        assert Split(s) == [""] + rest;
        assert Separators(s) == [s[0]] + seps;
        assert ([""] + rest)[1..] == rest;
      } else {
        assert Split(s) == [[s[0]] + rest[0]] + rest[1..];
        assert Separators(s) == seps;
        JoinGlueFirst(s[0], rest, seps);
      }
    }
  }

  lemma {:induction false} SeparatorsOfConcat(a: string, b: string)
    ensures Separators(a + b) == Separators(a) + Separators(b)
    decreases |a|
  {
    if a != [] {
      SeparatorsOfConcat(a[1..], b);
      assert (a + b)[0] == a[0];
      assert (a + b)[1..] == a[1..] + b;
      if IsWhitespace(a[0]) {
        calc {
          Separators(a + b);
          [a[0]] + Separators(a[1..] + b);
          [a[0]] + (Separators(a[1..]) + Separators(b));
          ([a[0]] + Separators(a[1..])) + Separators(b);
        }
      }
    } else {
      assert a + b == b;
    }
  }

  lemma {:induction false} SeparatorsOfWord(w: string)
    requires HasNoWhitespace(w)
    ensures Separators(w) == []
    decreases |w|
  {
    if w != [] {
      SeparatorsOfWord(w[1..]);
    }
  }

  /** Words joined by whitespace: the separators are exactly the joining characters. */
  lemma {:induction false} SeparatorsOfWords(words: seq<string>, seps: string)
    requires |words| == |seps| + 1
    requires forall k :: 0 <= k < |words| ==> HasNoWhitespace(words[k])
    requires forall i :: 0 <= i < |seps| ==> IsWhitespace(seps[i])
    ensures Separators(Join(words, seps)) == seps
    decreases |seps|
  {
    SeparatorsOfWord(words[0]);
    if seps != [] {
      SeparatorsOfWords(words[1..], seps[1..]);
      SeparatorsOfConcat(words[0], [seps[0]]);
      SeparatorsOfConcat(words[0] + [seps[0]], Join(words[1..], seps[1..]));
      assert [seps[0]] + seps[1..] == seps;
    }
  }

  /** The token count `s.split(/\s/g).length`. */
  function WordCount(s: string): (n: nat)
    ensures n >= 1
  {
    |Split(s)|
  }

  /** The token count is the number of whitespace characters plus one; "" counts as one word. */
  lemma WordCountIsWhitespacePlusOne(s: string)
    ensures WordCount(s) == WhitespaceCount(s) + 1
    ensures s == "" ==> WordCount(s) == 1
  {
    SplitJoinRoundTrip(s);
  }

  // ---------------------------------------------------------------------------
  // Content blocks and their word totals
  // ---------------------------------------------------------------------------

  /** One `{ text }` element of a block body. */
  datatype TextSpan = TextSpan(text: string)

  /** One content block of a post: `{ heading, body }`. */
  datatype ContentBlock = ContentBlock(heading: string, body: seq<TextSpan>)

  /**
   * The words of one block: the tokens of the HTML `asHtml` renders from the
   * body plus the tokens of the heading. `asHtml` stands for the rich-text
   * renderer of the content service, whose output this model does not see.
   */
  function BlockWords(block: ContentBlock, asHtml: seq<TextSpan> -> string): (n: nat)
    ensures n >= 2
    ensures n == WhitespaceCount(asHtml(block.body)) + WhitespaceCount(block.heading) + 2
  {
    WordCountIsWhitespacePlusOne(asHtml(block.body));
    WordCountIsWhitespacePlusOne(block.heading);
    WordCount(asHtml(block.body)) + WordCount(block.heading)
  }

  /** The per-block totals `content.map(...)`, one per block and in block order. */
  function WordTotals(content: seq<ContentBlock>, asHtml: seq<TextSpan> -> string): (totals: seq<nat>)
    ensures |totals| == |content|
    ensures forall i :: 0 <= i < |totals| ==> totals[i] == BlockWords(content[i], asHtml)
    ensures forall i :: 0 <= i < |totals| ==> totals[i] >= 2
  {
    seq(|content|, i requires 0 <= i < |content| => BlockWords(content[i], asHtml))
  }

  // ---------------------------------------------------------------------------
  // Minutes
  // ---------------------------------------------------------------------------

  /** `r` is `Math.ceil(x)`: the least integer not below `x`. */
  ghost predicate IsCeiling(r: int, x: real)
  {
    (r - 1) as real < x <= r as real
  }

  /**
   * `Math.ceil(total / 200 + 3)` for a word total: the least number of minutes
   * `m` with `200 * (m - 3) >= total`, in integer arithmetic.
   */
  function Minutes(total: nat): (m: nat)
    ensures m >= 3
    ensures 200 * (m as int - 3) >= total
    ensures 200 * (m as int - 4) < total
  {
    (total + 199) / 200 + 3
  }

  /** The integer formula agrees with the source's real-valued one. */
  lemma MinutesIsCeiling(total: nat)
    ensures IsCeiling(Minutes(total), total as real / 200.0 + 3.0)
  {
  }

  /** More words never mean fewer minutes. */
  lemma MinutesMonotone(t1: nat, t2: nat)
    requires t1 <= t2
    ensures Minutes(t1) <= Minutes(t2)
  {
  }

  /**
   * The estimate in minutes: `Math.ceil(result[0] / 200 + 3)`. With no blocks
   * `result[0]` is `undefined` and the division gives NaN, so there is no count.
   */
  function EstimateMinutes(content: seq<ContentBlock>, asHtml: seq<TextSpan> -> string): (r: Option<nat>)
    ensures r.Some? <==> |content| > 0
    ensures r.Some? ==> r.value >= 4
  {
    if |content| == 0 then None
    else
      var totals := WordTotals(content, asHtml);
      Some(Minutes(totals[0]))
  }

  // ---------------------------------------------------------------------------
  // The rendered string
  // ---------------------------------------------------------------------------

  predicate IsDigit(c: char)
  {
    '0' <= c <= '9'
  }

  function DigitChar(d: nat): (c: char)
    requires d < 10
    ensures IsDigit(c) && c as int == '0' as int + d
  {
    ['0', '1', '2', '3', '4', '5', '6', '7', '8', '9'][d]
  }

  function DigitValue(c: char): (d: nat)
    requires IsDigit(c)
    ensures d < 10 && DigitChar(d) == c
  {
    (c as int) - ('0' as int)
  }

  /** The value of a string of decimal digits, most significant first. */
  function DecimalValue(s: string): nat
    requires forall i :: 0 <= i < |s| ==> IsDigit(s[i])
    decreases |s|
  {
    if s == [] then 0
    else DecimalValue(s[..|s| - 1]) * 10 + DigitValue(s[|s| - 1])
  }

  /** `${n}` for a natural number: its decimal digits, without leading zeros. */
  function Decimal(n: nat): (s: string)
    ensures |s| >= 1
    ensures forall i :: 0 <= i < |s| ==> IsDigit(s[i])
    ensures s[0] == '0' ==> n == 0
    decreases n
  {
    if n < 10 then [DigitChar(n)]
    else Decimal(n / 10) + [DigitChar(n % 10)]
  }

  /** Reading the rendered digits back gives the number. */
  lemma {:induction false} DecimalRoundTrip(n: nat)
    ensures DecimalValue(Decimal(n)) == n
    decreases n
  {
    var s := Decimal(n);
    if n >= 10 {
      DecimalRoundTrip(n / 10);
      assert s[..|s| - 1] == Decimal(n / 10);
    }
  }

  /** `readTime(content)`: the estimate rendered as `${minutes} min`. */
  function ReadTime(content: seq<ContentBlock>, asHtml: seq<TextSpan> -> string): (r: string)
    ensures |r| >= 5 && r[|r| - 4..] == " min"
    ensures |content| == 0 <==> r == "NaN min"
  {
    match EstimateMinutes(content, asHtml)
    case None => "NaN min"
    case Some(m) => Decimal(m) + " min"
  }

  /**
   * For a post with content, the text before " min" is the decimal form of
   * `Math.ceil(w / 200 + 3)`, where `w` is the first block's word total, written
   * without a leading zero, and it is at least 4.
   */
  lemma ReadTimeShowsMinutes(content: seq<ContentBlock>, asHtml: seq<TextSpan> -> string)
    requires |content| > 0
    ensures var r := ReadTime(content, asHtml);
      var digits := r[..|r| - 4];
      (forall i :: 0 <= i < |digits| ==> IsDigit(digits[i])) &&
      |digits| >= 1 && digits[0] != '0' &&
      DecimalValue(digits) == Minutes(BlockWords(content[0], asHtml)) &&
      IsCeiling(DecimalValue(digits), BlockWords(content[0], asHtml) as real / 200.0 + 3.0) &&
      DecimalValue(digits) >= 4
  {
    var m := Minutes(BlockWords(content[0], asHtml));
    var r := ReadTime(content, asHtml);
    assert r == Decimal(m) + " min";
    assert r[..|r| - 4] == Decimal(m);
    DecimalRoundTrip(m);
    MinutesIsCeiling(BlockWords(content[0], asHtml));
  }

  /** Blocks after the first never change the estimate. */
  lemma OnlyFirstBlockCounts(first: ContentBlock, rest: seq<ContentBlock>, asHtml: seq<TextSpan> -> string)
    ensures ReadTime([first] + rest, asHtml) == ReadTime([first], asHtml)
  {
    assert ([first] + rest)[0] == first;
  }

  /** A first block with more words never yields a shorter estimate. */
  lemma ReadTimeMonotone(a: ContentBlock, b: ContentBlock, rest: seq<ContentBlock>, asHtml: seq<TextSpan> -> string)
    requires BlockWords(a, asHtml) <= BlockWords(b, asHtml)
    ensures EstimateMinutes([a] + rest, asHtml).value <= EstimateMinutes([b] + rest, asHtml).value
  {
    assert ([a] + rest)[0] == a && ([b] + rest)[0] == b;
    MinutesMonotone(BlockWords(a, asHtml), BlockWords(b, asHtml));
  }

  /** Helper for the examples: a word followed by one whitespace character adds that one separator. */
  lemma SeparatorsAfterWord(w: string, c: char, rest: string)
    requires HasNoWhitespace(w) && IsWhitespace(c)
    ensures Separators(w + [c] + rest) == [c] + Separators(rest)
  {
    SeparatorsOfWord(w);
    SeparatorsOfConcat(w, [c] + rest);
    assert w + [c] + rest == w + ([c] + rest);
    assert ([c] + rest)[1..] == rest;
  }

  /** Helper for ShortPostExample: the heading holds one separator. */
  lemma HeadingExample(heading: string)
    requires heading == "Hello world"
    ensures WhitespaceCount(heading) == 1
  {
    assert HasNoWhitespace("Hello") && HasNoWhitespace("world");
    SeparatorsOfWord("world");
    SeparatorsAfterWord("Hello", ' ', "world");
    assert "Hello" + [' '] + "world" == heading;
  }

  /** Helper for BodyExample: the rendered body, spelled word by word. */
  lemma BodyText()
    ensures "<p>one" + [' '] + ("two" + [' '] + ("three" + [' '] + "four</p>")) == "<p>one two three four</p>"
  {
  }

  /** Helper for ShortPostExample: the rendered body holds three separators. */
  lemma BodyExample(html: string)
    requires html == "<p>one two three four</p>"
    ensures WhitespaceCount(html) == 3
  {
    var t3 := "four</p>";
    assert HasNoWhitespace(t3);
    SeparatorsOfWord(t3);
    assert HasNoWhitespace("three");
    SeparatorsAfterWord("three", ' ', t3);
    var t2 := "three" + [' '] + t3;
    assert HasNoWhitespace("two");
    SeparatorsAfterWord("two", ' ', t2);
    var t1 := "two" + [' '] + t2;
    assert HasNoWhitespace("<p>one");
    SeparatorsAfterWord("<p>one", ' ', t1);
    BodyText();
  }

  /** Helper for ShortPostExample: four minutes render as "4 min". */
  lemma FourMinutesText()
    ensures Decimal(4) + " min" == "4 min"
  {
    assert Decimal(4) == "4";
  }

  /**
   * A heading "Hello world" and a body rendered as "<p>one two three four</p>"
   * make six words, which is a four-minute read.
   */
  lemma ShortPostExample(block: ContentBlock, asHtml: seq<TextSpan> -> string)
    requires block.heading == "Hello world"
    requires asHtml(block.body) == "<p>one two three four</p>"
    ensures ReadTime([block], asHtml) == "4 min"
  {
    HeadingExample(block.heading);
    BodyExample(asHtml(block.body));
    var words := BlockWords(block, asHtml);
    assert words == 6;
    var m := Minutes(words);
    assert m == 4;
    assert EstimateMinutes([block], asHtml) == Some(m);
    assert ReadTime([block], asHtml) == Decimal(m) + " min";
    FourMinutesText();
  }
}
