/** String literals of the work-item query language (WIQL): a literal is
    written between single quotes, and a quote inside it is written twice.
    The program escapes the title it looks up, but not the project name or
    the area path. */
module Wiql {
  import opened Wrappers

  const Quote: char := '\''

  /** No single quote anywhere in `s`: such a text is its own literal. */
  predicate Plain(s: string) {
    forall i :: 0 <= i < |s| ==> s[i] != Quote
  }

  /** `title.Replace("'", "''")`: every quote doubled. */
  function Escape(s: string): (r: string)
    ensures |r| >= |s|
    ensures Plain(s) ==> r == s
  {
    if s == [] then []
    else (if s[0] == Quote then [Quote, Quote] else [s[0]]) + Escape(s[1..])
  }

  /** How the store reads the text between the delimiting quotes of a
      literal: `''` stands for one quote, and a lone quote would have ended
      the literal early, which makes the query malformed (None). */
  function Decode(body: string): Option<string>
    decreases |body|
  {
    if body == [] then Some([])
    else if body[0] != Quote then
      match Decode(body[1..])
      case Some(rest) => Some([body[0]] + rest)
      case None => None
    else if 2 <= |body| && body[1] == Quote then
      match Decode(body[2..])
      case Some(rest) => Some([Quote] + rest)
      case None => None
    else None
  }

  /** Round trip: the escaped title reads back as the title itself. */
  lemma {:induction false} DecodeEscape(s: string)
    ensures Decode(Escape(s)) == Some(s)
  {
    if s != [] {
      DecodeEscape(s[1..]);
      var e := Escape(s);
      if s[0] == Quote {
        assert e[2..] == Escape(s[1..]);
      } else {
        assert e[1..] == Escape(s[1..]);
      }
      assert [s[0]] + s[1..] == s;
    }
  }

  /** The other direction: every well-formed literal body is the escape of
      what it reads as. */
  lemma {:induction false} EscapeDecode(body: string)
    requires Decode(body).Some?
    ensures Escape(Decode(body).value) == body
    decreases |body|
  {
    if body != [] {
      var v := Decode(body).value;
      if body[0] != Quote {
        EscapeDecode(body[1..]);
        assert v[1..] == Decode(body[1..]).value;
        assert body == [body[0]] + body[1..];
      } else {
        EscapeDecode(body[2..]);
        assert v[1..] == Decode(body[2..]).value;
        assert body == [Quote, Quote] + body[2..];
      }
    }
  }

  /** An unescaped text is read back unchanged exactly when it holds no quote:
      otherwise it is either malformed or read as a different text. */
  lemma {:induction false} DecodeUnescaped(s: string)
    ensures Decode(s) == Some(s) <==> Plain(s)
    decreases |s|
  {
    if s != [] {
      DecodeUnescaped(s[1..]);
      if s[0] == Quote {
        if Decode(s).Some? {
          EscapeDecode(s);
          DecodeLengthAtMost(s);
          assert |Decode(s).value| < |s|;
        }
        assert !Plain(s);
      } else {
        assert [s[0]] + s[1..] == s;
        assert Plain(s) <==> Plain(s[1..]) by {
          if Plain(s[1..]) {
            forall i | 0 <= i < |s| ensures s[i] != Quote {
              if i > 0 { assert s[i] == s[1..][i - 1]; }
            }
          }
          if Plain(s) {
            forall i | 0 <= i < |s[1..]| ensures s[1..][i] != Quote {
              assert s[1..][i] == s[i + 1];
            }
          }
        }
        if Decode(s[1..]).Some? {
          assert Decode(s).value == [s[0]] + Decode(s[1..]).value;
        }
      }
    }
  }

  /** A literal never reads as a longer text; with a quote in it, as a strictly shorter one. */
  lemma {:induction false} DecodeLengthAtMost(body: string)
    requires Decode(body).Some?
    ensures |Decode(body).value| <= |body|
    ensures !Plain(body) ==> |Decode(body).value| < |body|
    decreases |body|
  {
    if body != [] {
      if body[0] != Quote {
        DecodeLengthAtMost(body[1..]);
        if !Plain(body) {
          var i :| 0 <= i < |body| && body[i] == Quote;
          assert body[1..][i - 1] == Quote;
        }
      } else {
        DecodeLengthAtMost(body[2..]);
      }
    }
  }
}
