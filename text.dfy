/** String handling the handlers rely on: JavaScript's `String.prototype.trim`, which
    Mongoose applies to every schema path declared with `trim: true`. */
module Text {
  import opened Common

  /** The code points `trim` removes: ECMAScript WhiteSpace (tab, vertical tab, form feed,
      space, no-break space, byte order mark and the space separators) and LineTerminator. */
  predicate IsSpace(c: char) {
    || c == '\t' || c == '\U{B}' || c == '\U{C}' || c == ' ' || c == '\U{A0}' || c == '\U{FEFF}'
    || c == '\n' || c == '\r' || c == '\U{2028}' || c == '\U{2029}'
    || c == '\U{1680}' || ('\U{2000}' <= c <= '\U{200A}') || c == '\U{202F}' || c == '\U{205F}'
    || c == '\U{3000}'
  }

  /** `s` without its leading white space. */
  function TrimStart(s: string): (r: string)
    ensures |r| <= |s|
  {
    if |s| > 0 && IsSpace(s[0]) then TrimStart(s[1..]) else s
  }

  /** `s` without its trailing white space. */
  function TrimEnd(s: string): (r: string)
    ensures |r| <= |s|
  {
    if |s| > 0 && IsSpace(s[|s| - 1]) then TrimEnd(s[..|s| - 1]) else s
  }

  /** `TrimStart` drops a run of white space from the front and stops at the first other
      character. */
  lemma {:induction false} TrimStartShape(s: string)
    ensures TrimStart(s) == s[|s| - |TrimStart(s)|..]
    ensures TrimStart(s) == [] || !IsSpace(TrimStart(s)[0])
    ensures forall i | 0 <= i < |s| - |TrimStart(s)| :: IsSpace(s[i])
  {
    if |s| > 0 && IsSpace(s[0]) {
      TrimStartShape(s[1..]);
      forall i | 0 <= i < |s| - |TrimStart(s)| ensures IsSpace(s[i]) {
        if i > 0 {
          assert s[i] == s[1..][i - 1];
        }
      }
    }
  }

  /** `TrimEnd` drops a run of white space from the back and stops at the last other
      character. */
  lemma {:induction false} TrimEndShape(s: string)
    ensures TrimEnd(s) == s[..|TrimEnd(s)|]
    ensures TrimEnd(s) == [] || !IsSpace(TrimEnd(s)[|TrimEnd(s)| - 1])
    ensures forall i | |TrimEnd(s)| <= i < |s| :: IsSpace(s[i])
  {
    if |s| > 0 && IsSpace(s[|s| - 1]) {
      var p := s[..|s| - 1];
      TrimEndShape(p);
      assert s[..|TrimEnd(s)|] == p[..|TrimEnd(p)|];
      forall i | |TrimEnd(s)| <= i < |s| ensures IsSpace(s[i]) {
        if i < |s| - 1 {
          assert s[i] == p[i];
        }
      }
    }
  }

  /** `s.trim()`. */
  function Trim(s: string): string {
    TrimEnd(TrimStart(s))
  }

  /** The value Mongoose stores for an optional string path declared with `trim: true`. */
  function TrimOpt(s: Option<string>): Option<string> {
    if s.Some? then Some(Trim(s.value)) else None
  }

  /** Where the kept piece of `s` starts and ends. */
  function TrimFrom(s: string): nat {
    |s| - |TrimStart(s)|
  }

  function TrimTo(s: string): nat {
    TrimFrom(s) + |Trim(s)|
  }

  /** Trimming keeps a contiguous piece of `s` and removes only white space around it. */
  lemma TrimIsInfix(s: string)
    ensures TrimTo(s) <= |s| && Trim(s) == s[TrimFrom(s)..TrimTo(s)]
    ensures forall i | 0 <= i < TrimFrom(s) :: IsSpace(s[i])
    ensures forall i | TrimTo(s) <= i < |s| :: IsSpace(s[i])
  {
    var t := TrimStart(s);
    var e := TrimEnd(t);
    var a := |s| - |t|;
    TrimStartShape(s);
    TrimEndShape(t);
    PieceOfPiece(s, t, e);
    assert TrimFrom(s) == a && Trim(s) == e;
    assert TrimTo(s) == a + |e|;
  }

  /** A prefix `e` of a suffix `t` of `s` is the slice of `s` between them, and what follows
      `e` in `t` follows it in `s`. */
  lemma PieceOfPiece(s: string, t: string, e: string)
    requires |t| <= |s| && t == s[|s| - |t|..]
    requires |e| <= |t| && e == t[..|e|] && forall i | |e| <= i < |t| :: IsSpace(t[i])
    ensures var a := |s| - |t|;
      e == s[a..a + |e|] && forall i | a + |e| <= i < |s| :: IsSpace(s[i])
  {
    var a := |s| - |t|;
    forall i | a + |e| <= i < |s| ensures IsSpace(s[i]) {
      assert s[i] == t[i - a];
    }
  }

  /** What is left after trimming neither starts nor ends with white space. */
  lemma TrimEnds(s: string)
    ensures Trim(s) == [] || (!IsSpace(Trim(s)[0]) && !IsSpace(Trim(s)[|Trim(s)| - 1]))
  {
    var t := TrimStart(s);
    TrimStartShape(s);
    TrimEndShape(t);
    if TrimEnd(t) != [] {
      assert TrimEnd(t)[0] == t[0];
    }
  }

  /** A string consisting of white space only trims to the empty string, and conversely. */
  lemma {:induction false} BlankIffAllSpace(s: string)
    ensures Trim(s) == "" <==> forall i | 0 <= i < |s| :: IsSpace(s[i])
  {
    if forall i | 0 <= i < |s| :: IsSpace(s[i]) {
      AllSpaceTrimsStartToEmpty(s);
    } else {
      TrimStartShape(s);
      TrimEndShape(TrimStart(s));
    }
  }

  lemma {:induction false} AllSpaceTrimsStartToEmpty(s: string)
    requires forall i | 0 <= i < |s| :: IsSpace(s[i])
    ensures TrimStart(s) == ""
  {
    if |s| > 0 {
      AllSpaceTrimsStartToEmpty(s[1..]);
    }
  }

  /** Trimming twice is trimming once, so a stored trimmed value is stable under re-saving. */
  lemma TrimIdempotent(s: string)
    ensures Trim(Trim(s)) == Trim(s)
  {
    var t := Trim(s);
    if t != [] {
      TrimEnds(s);
      assert TrimStart(t) == t;
      assert TrimEnd(t) == t;
    }
  }

  /** `s` neither starts nor ends with white space. */
  predicate Bare(s: string) {
    s == [] || (!IsSpace(s[0]) && !IsSpace(s[|s| - 1]))
  }

  /** A string without surrounding white space is left as it is by `trim`. */
  lemma BareTrimsToItself(s: string)
    requires Bare(s)
    ensures Trim(s) == s
  {
  }
}
