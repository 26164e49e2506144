/** The JavaScript string operations the OBJ reader uses: `split` on one
    character, and `trim()` followed by `split(/\s+/)`. */
module Text {
  import opened MeshGeometry

  /** The characters JavaScript's `\s` and `trim` treat as white space. */
  predicate IsSpace(c: char) {
    || c == ' ' || c == '\t' || c == '\n' || c == '\r' || c == '\U{B}' || c == '\U{C}'
    || c == '\U{A0}' || c == '\U{1680}' || ('\U{2000}' <= c <= '\U{200A}')
    || c == '\U{2028}' || c == '\U{2029}' || c == '\U{202F}' || c == '\U{205F}'
    || c == '\U{3000}' || c == '\U{FEFF}'
  }

  /* ---------------------------------------------------------------- */
  /* s.split(sep) for a one-character separator                        */
  /* ---------------------------------------------------------------- */

  /** `s.split(sep)`: the pieces between separators, empty ones included;
      the empty string gives one empty piece. */
  function SplitOn(s: string, sep: char): (r: seq<string>)
    ensures |r| >= 1
    decreases |s|
  {
    if |s| == 0 then [""]
    else
      var rest := SplitOn(s[1..], sep);
      if s[0] == sep then [""] + rest else [[s[0]] + rest[0]] + rest[1..]
  }

  /** `parts.join(sep)`. */
  function Join(parts: seq<string>, sep: char): string
    requires |parts| >= 1
  {
    if |parts| == 1 then parts[0] else parts[0] + [sep] + Join(parts[1..], sep)
  }

  /** Joining the pieces with the separator gives back the string. */
  lemma {:induction false} JoinSplitOn(s: string, sep: char)
    ensures Join(SplitOn(s, sep), sep) == s
  {
    if |s| > 0 {
      var rest := SplitOn(s[1..], sep);
      JoinSplitOn(s[1..], sep);
      if s[0] == sep {
        assert SplitOn(s, sep)[1..] == rest;
      } else {
        var r := SplitOn(s, sep);
        if |rest| == 1 {
          assert r == [[s[0]] + rest[0]];
        } else {
          assert r[1..] == rest[1..];
          assert Join(r, sep) == [s[0]] + rest[0] + [sep] + Join(rest[1..], sep);
        }
      }
    }
  }

  /** No piece holds the separator, and there is one piece more than there
      are separators in the string. */
  lemma {:induction false} SplitOnPieces(s: string, sep: char)
    ensures forall p :: p in SplitOn(s, sep) ==> sep !in p
    ensures |SplitOn(s, sep)| == multiset(s)[sep] + 1
  {
    if |s| > 0 {
      SplitOnPieces(s[1..], sep);
      assert s == [s[0]] + s[1..];
      assert multiset(s) == multiset([s[0]]) + multiset(s[1..]);
      var rest := SplitOn(s[1..], sep);
      if s[0] != sep {
        assert rest[0] in rest;
        forall p | p in SplitOn(s, sep)
          ensures sep !in p
        {
          if p !in rest[1..] {
            assert p == [s[0]] + rest[0];
          }
        }
      }
    }
  }

  /* ---------------------------------------------------------------- */
  /* s.trim().split(/\s+/)                                             */
  /* ---------------------------------------------------------------- */

  /** The maximal runs of non-space characters, in order; a string that
      starts with a non-space character starts its first word. */
  function Words(s: string): (r: seq<string>)
    ensures |s| > 0 && !IsSpace(s[0]) ==> |r| > 0 && |r[0]| > 0 && r[0][0] == s[0]
    decreases |s|
  {
    if |s| == 0 then []
    else
      var rest := Words(s[1..]);
      if IsSpace(s[0]) then rest
      else if |s| >= 2 && !IsSpace(s[1]) then [[s[0]] + rest[0]] + rest[1..]
      else [[s[0]]] + rest
  }

  /** `s.trim().split(/\s+/)`: the words of `s`, or a single empty string
      when `s` holds nothing but white space. */
  function Fields(s: string): (r: seq<string>)
    ensures |r| >= 1
  {
    if Words(s) == [] then [""] else Words(s)
  }

  /** The characters of `s` that are not white space, in order. */
  function NonSpace(s: string): string {
    if |s| == 0 then [] else (if IsSpace(s[0]) then [] else [s[0]]) + NonSpace(s[1..])
  }

  /** Flattening a list whose head is known. */
  lemma {:induction false} FlattenCons<T>(head: seq<T>, tail: seq<seq<T>>)
    ensures Flatten([head] + tail) == head + Flatten(tail)
    decreases |tail|
  {
    if |tail| > 0 {
      var all := [head] + tail;
      assert all[..|all| - 1] == [head] + tail[..|tail| - 1];
      FlattenCons(head, tail[..|tail| - 1]);
    } else {
      assert [head] + tail == [head];
      assert [head][..0] == [];
    }
  }

  /** The words laid end to end are the string without its white space:
      splitting loses nothing but the separators. */
  lemma {:induction false} WordsCoverText(s: string)
    ensures Flatten(Words(s)) == NonSpace(s)
    decreases |s|
  {
    if |s| > 0 {
      var rest := Words(s[1..]);
      WordsCoverText(s[1..]);
      assert Flatten(rest) == NonSpace(s[1..]);
      if !IsSpace(s[0]) {
        assert NonSpace(s) == [s[0]] + Flatten(rest);
        if |s| >= 2 && !IsSpace(s[1]) {
          assert |rest| > 0;
          var tail := rest[1..];
          assert rest == [rest[0]] + tail;
          FlattenCons([s[0]] + rest[0], tail);
          FlattenCons(rest[0], tail);
          assert Words(s) == [[s[0]] + rest[0]] + tail;
        } else {
          FlattenCons([s[0]], rest);
          assert Words(s) == [[s[0]]] + rest;
        }
      }
    }
  }

  /** Every word is non-empty and holds no white space. */
  lemma {:induction false} WordsHaveNoSpace(s: string)
    ensures forall w :: w in Words(s) ==> |w| > 0 && forall c :: c in w ==> !IsSpace(c)
    decreases |s|
  {
    if |s| > 0 {
      WordsHaveNoSpace(s[1..]);
      var rest := Words(s[1..]);
      if !IsSpace(s[0]) && |s| >= 2 && !IsSpace(s[1]) {
        assert rest[0] in rest;
        forall w | w in Words(s)
          ensures |w| > 0 && forall c :: c in w ==> !IsSpace(c)
        {
          if w !in rest[1..] {
            assert w == [s[0]] + rest[0];
          }
        }
      }
    }
  }

  /** A line of nothing but white space gives a single empty field. */
  lemma {:induction false} FieldsOfBlank(s: string)
    requires forall i :: 0 <= i < |s| ==> IsSpace(s[i])
    ensures Fields(s) == [""]
    decreases |s|
  {
    if |s| > 0 {
      FieldsOfBlank(s[1..]);
    }
  }
}
