/** Orders and normal forms of texts. */
module Texts {

  /** Code point order, as Python compares strings. */
  predicate Below(a: string, b: string) {
    b != "" && (a == "" || a[0] < b[0] || (a[0] == b[0] && Below(a[1..], b[1..])))
  }

  lemma {:induction false} BelowIsTotal(a: string, b: string)
    ensures a == b || Below(a, b) || Below(b, a)
    ensures !(Below(a, b) && Below(b, a)) && (a == b ==> !Below(a, b))
  {
    if a != "" && b != "" && a[0] == b[0] {
      BelowIsTotal(a[1..], b[1..]);
      assert a == [a[0]] + a[1..] && b == [b[0]] + b[1..];
    }
  }

  lemma {:induction false} BelowIsTransitive(a: string, b: string, c: string)
    requires Below(a, b) && Below(b, c)
    ensures Below(a, c)
  {
    if a != "" && a[0] == b[0] && b[0] == c[0] {
      BelowIsTransitive(a[1..], b[1..], c[1..]);
    }
  }

  function UpperChar(c: char): char {
    if 'a' <= c <= 'z' then (c as int - 32) as char else c
  }

  /** Upper case, for ASCII letters. */
  function Upper(text: string): string {
    seq(|text|, i requires 0 <= i < |text| => UpperChar(text[i]))
  }

  lemma UpperTwice(text: string)
    ensures Upper(Upper(text)) == Upper(text) && (Upper(text) == "" <==> text == "")
  {
  }

  predicate Blank(c: char) {
    c == ' ' || c == '\t' || c == '\n' || c == '\r'
  }

  function StripLeft(text: string): string {
    if text != "" && Blank(text[0]) then StripLeft(text[1..]) else text
  }

  function StripRight(text: string): string {
    if text != "" && Blank(text[|text| - 1]) then StripRight(text[..|text| - 1]) else text
  }

  function Strip(text: string): string {
    StripRight(StripLeft(text))
  }

  predicate Trimmed(text: string) {
    text != "" ==> !Blank(text[0]) && !Blank(text[|text| - 1])
  }

  lemma {:induction false} StripLeftTrims(text: string)
    ensures StripLeft(text) != "" ==> !Blank(StripLeft(text)[0])
  {
    if text != "" {
      StripLeftTrims(text[1..]);
    }
  }

  lemma {:induction false} StripRightTrims(text: string)
    requires text != "" ==> !Blank(text[0])
    ensures Trimmed(StripRight(text))
  {
    if text != "" {
      StripRightTrims(text[..|text| - 1]);
    }
  }

  lemma StripTrims(text: string)
    ensures Trimmed(Strip(text))
  {
    StripLeftTrims(text);
    StripRightTrims(StripLeft(text));
  }

  lemma TrimmedStays(text: string)
    requires Trimmed(text)
    ensures Strip(text) == text
  {
  }
}
