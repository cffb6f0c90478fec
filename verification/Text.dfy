/** The few string operations the registry and the webhook views rely on. */
module Text {

  /** Lower-cases ASCII. No other character lower-cases to a letter of the words compared here. */
  function Lower(text: string): string {
    seq(|text|, i requires 0 <= i < |text| =>
      if 'A' <= text[i] <= 'Z' then (text[i] as int + 32) as char else text[i])
  }

  /** The text is the word, in any mixture of ASCII cases. */
  predicate Spells(text: string, word: string) {
    |text| == |word| && forall i :: 0 <= i < |text| ==>
      text[i] == word[i] || ('a' <= word[i] <= 'z' && text[i] as int + 32 == word[i] as int)
  }

  /** A text lower-cases to a word without capitals exactly when it spells the word. */
  lemma LowerSpells(text: string, word: string)
    requires forall i :: 0 <= i < |word| ==> !('A' <= word[i] <= 'Z')
    ensures Lower(text) == word <==> Spells(text, word)
  {
    if Lower(text) == word {
      assert forall i :: 0 <= i < |text| ==> Lower(text)[i] == word[i];
    }
  }

  /** The characters for which Python's str.isspace holds. */
  predicate IsSpace(c: char) {
    var n := c as int;
    || 0x09 <= n <= 0x0d || 0x1c <= n <= 0x20 || n == 0x85 || n == 0xa0 || n == 0x1680
    || 0x2000 <= n <= 0x200a || n == 0x2028 || n == 0x2029 || n == 0x202f || n == 0x205f || n == 0x3000
  }

  function StripLeft(text: string): string {
    if text != [] && IsSpace(text[0]) then StripLeft(text[1..]) else text
  }

  function StripRight(text: string): string {
    if text != [] && IsSpace(text[|text| - 1]) then StripRight(text[..|text| - 1]) else text
  }

  function Strip(text: string): string {
    StripRight(StripLeft(text))
  }

  predicate AllSpace(text: string) {
    forall k :: 0 <= k < |text| ==> IsSpace(text[k])
  }

  lemma {:induction false} StripLeftKeepsRest(text: string) returns (left: string)
    ensures var r := StripLeft(text);
      text == left + r && AllSpace(left) && (r != [] ==> !IsSpace(r[0]))
  {
    if text != [] && IsSpace(text[0]) {
      left := StripLeftKeepsRest(text[1..]);
      left := [text[0]] + left;
    } else {
      left := [];
    }
  }

  lemma {:induction false} StripRightKeepsRest(text: string) returns (right: string)
    ensures var r := StripRight(text);
      text == r + right && AllSpace(right) && (r != [] ==> !IsSpace(r[|r| - 1]))
  {
    if text != [] && IsSpace(text[|text| - 1]) {
      right := StripRightKeepsRest(text[..|text| - 1]);
      right := right + [text[|text| - 1]];
    } else {
      right := [];
    }
  }

  /** Only white space is stripped, only at the ends, and all of it. */
  lemma StripKeepsMiddle(text: string) returns (left: string, right: string)
    ensures var r := Strip(text);
      && text == left + r + right && AllSpace(left) && AllSpace(right)
      && (r != [] ==> !IsSpace(r[0]) && !IsSpace(r[|r| - 1]))
  {
    left := StripLeftKeepsRest(text);
    right := StripRightKeepsRest(StripLeft(text));
    assert Strip(text) != [] ==> Strip(text)[0] == StripLeft(text)[0];
  }

  lemma StripAddsNothing(text: string, c: char)
    requires c !in text
    ensures c !in Strip(text)
  {
    var left, right := StripKeepsMiddle(text);
    assert forall k :: 0 <= k < |Strip(text)| ==> text[|left| + k] == Strip(text)[k];
  }

  lemma StripTwice(text: string)
    ensures Strip(Strip(text)) == Strip(text)
  {
    var left, right := StripKeepsMiddle(text);
  }

  /** The part is the name with white space around it. */
  ghost predicate Pads(part: string, name: string) {
    exists left, right :: AllSpace(left) && AllSpace(right) && part == left + name + right
  }

  /** The text is stripped: neither end is white space. */
  predicate IsStripped(text: string) {
    text != [] ==> !IsSpace(text[0]) && !IsSpace(text[|text| - 1])
  }

  lemma StripPads(text: string)
    ensures Pads(text, Strip(text)) && IsStripped(Strip(text))
    ensures Strip(text) == [] <==> AllSpace(text)
  {
    var left, right := StripKeepsMiddle(text);
    assert Strip(text) != [] ==> text[|left|] == Strip(text)[0];
    assert Strip(text) == [] ==> text == left + right;
  }

  /** White space is what separates words, not what makes them. */
  lemma SpaceIsBlank()
    ensures IsSpace(' ') && IsSpace('\t') && IsSpace('\n') && IsSpace('\r')
    ensures forall c :: '!' <= c <= '~' ==> !IsSpace(c)
  {
  }

  function Split(text: string, separator: char): (parts: seq<string>)
    ensures |parts| >= 1
  {
    if text == [] then [[]]
    else
      var rest := Split(text[1..], separator);
      if text[0] == separator then [[]] + rest
      else [[text[0]] + rest[0]] + rest[1..]
  }

  function Join(parts: seq<string>, separator: char): string
    requires |parts| >= 1
  {
    if |parts| == 1 then parts[0] else parts[0] + [separator] + Join(parts[1..], separator)
  }

  /** Splitting is undone by joining, and leaves no separator inside a part. */
  lemma {:induction false} SplitThenJoin(text: string, separator: char)
    ensures Join(Split(text, separator), separator) == text
    ensures forall part :: part in Split(text, separator) ==> separator !in part
  {
    if text == [] {
    } else {
      SplitThenJoin(text[1..], separator);
      var rest := Split(text[1..], separator);
      var parts := Split(text, separator);
      if text[0] == separator {
        assert parts[1..] == rest;
      } else if |rest| > 1 {
        assert parts[1..] == rest[1..];
        assert ([text[0]] + rest[0]) + [separator] + Join(rest[1..], separator)
            == [text[0]] + (rest[0] + [separator] + Join(rest[1..], separator));
      }
    }
  }

  /** `text.split(separator)[0]` is the longest prefix without the separator. */
  lemma {:induction false} FirstPartIsPrefix(text: string, separator: char)
    ensures var head := Split(text, separator)[0];
      head <= text && separator !in head && (head == text || text[|head|] == separator)
  {
    if text != [] && text[0] != separator {
      FirstPartIsPrefix(text[1..], separator);
    }
  }
}
