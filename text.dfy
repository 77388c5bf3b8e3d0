/** Substring facts used to state what the human-readable messages contain. */
module Text {

  /** `part` occurs somewhere in `s`. */
  ghost predicate Mentions(s: string, part: string)
  {
    exists i, j :: 0 <= i <= j <= |s| && s[i..j] == part
  }

  lemma MentionsStart(part: string, post: string)
    ensures Mentions(part + post, part)
  {
    assert (part + post)[0..|part|] == part;
  }

  lemma MentionsEnd(pre: string, part: string)
    ensures Mentions(pre + part, part)
  {
    assert (pre + part)[|pre|..|pre| + |part|] == part;
  }

  lemma MentionsIn(pre: string, part: string, post: string)
    ensures Mentions(pre + part + post, part)
  {
    var s := pre + part + post;
    assert s[|pre|..|pre| + |part|] == part;
  }

  lemma MentionsAppend(s: string, part: string, post: string)
    requires Mentions(s, part)
    ensures Mentions(s + post, part)
  {
    var i, j :| 0 <= i <= j <= |s| && s[i..j] == part;
    assert (s + post)[i..j] == part;
  }
}
