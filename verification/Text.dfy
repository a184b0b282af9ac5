/** White space as `str::trim` sees it. */
module Text {
  predicate Space(c: char) {
    || '\t' <= c <= '\r' || c == ' ' || c == '\U{0085}' || c == '\U{00A0}' || c == '\U{1680}'
    || '\U{2000}' <= c <= '\U{200A}' || c == '\U{2028}' || c == '\U{2029}' || c == '\U{202F}' || c == '\U{205F}' || c == '\U{3000}'
  }

  predicate Blank(text: string) {
    forall i :: 0 <= i < |text| ==> Space(text[i])
  }

  /** The characters with the Unicode property White_Space. */
  lemma SpaceIsWhiteSpace(c: char)
    ensures Space(c) <==> c as int in {9, 10, 11, 12, 13, 32, 133, 160, 5760, 8192, 8193, 8194, 8195, 8196, 8197, 8198, 8199, 8200, 8201,
                                       8202, 8232, 8233, 8239, 8287, 12288}
  {}

  function TrimStart(text: string): string {
    if text != "" && Space(text[0]) then TrimStart(text[1..]) else text
  }

  function TrimEnd(text: string): string {
    if text != "" && Space(text[|text| - 1]) then TrimEnd(text[..|text| - 1]) else text
  }

  lemma {:induction false} TrimStartEmpty(text: string)
    ensures Blank(text) <==> TrimStart(text) == ""
    ensures TrimStart(text) != "" ==> !Blank(TrimStart(text))
  {
    if text != "" && Space(text[0]) {
      TrimStartEmpty(text[1..]);
      assert text == [text[0]] + text[1..];
    }
  }

  lemma {:induction false} TrimEndEmpty(text: string)
    ensures Blank(text) <==> TrimEnd(text) == ""
  {
    if text != "" && Space(text[|text| - 1]) {
      TrimEndEmpty(text[..|text| - 1]);
      assert text == text[..|text| - 1] + [text[|text| - 1]];
    }
  }

  /** A text is blank exactly if trimming it leaves nothing. */
  lemma BlankIsTrimmedAway(text: string)
    ensures Blank(text) <==> TrimEnd(TrimStart(text)) == ""
  {
    TrimStartEmpty(text);
    TrimEndEmpty(TrimStart(text));
  }
}
