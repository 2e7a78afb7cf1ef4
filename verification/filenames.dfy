/**
 * Filename sanitisation (`sanitize_filename` in soptify.py): every character
 * of the nine Windows-reserved path characters is deleted, every other
 * character (including non-ASCII ones) is kept in its original order.
 */
module Filenames {

  // The nine reserved characters: backslash, slash, star, question mark,
  // colon, double quote, less-than, greater-than and vertical bar.
  predicate IsReserved(c: char)
  {
    c == '\\' || c == '/' || c == '*' || c == '?' || c == ':' ||
    c == '"' || c == '<' || c == '>' || c == '|'
  }

  /** A string with no reserved character in it. */
  predicate IsClean(s: string)
  {
    forall i :: 0 <= i < |s| ==> !IsReserved(s[i])
  }

  /** Number of reserved characters in `s`. */
  function ReservedCount(s: string): nat
  {
    if s == [] then 0 else (if IsReserved(s[0]) then 1 else 0) + ReservedCount(s[1..])
  }

  /** Deletes every reserved character and keeps the rest in order. */
  function Sanitize(s: string): (r: string)
    ensures IsClean(r)
    ensures |r| <= |s|
  {
    if s == [] then []
    else if IsReserved(s[0]) then Sanitize(s[1..])
    else [s[0]] + Sanitize(s[1..])
  }

  /** Sanitisation distributes over concatenation: nothing is reordered. */
  lemma {:induction false} SanitizeAppend(a: string, b: string)
    ensures Sanitize(a + b) == Sanitize(a) + Sanitize(b)
  {
    if a == [] {
      assert a + b == b;
    } else {
      assert (a + b)[0] == a[0];
      assert (a + b)[1..] == a[1..] + b;
      SanitizeAppend(a[1..], b);
    }
  }

  /** Exactly the reserved characters are removed. */
  lemma {:induction false} SanitizeLength(s: string)
    ensures |Sanitize(s)| == |s| - ReservedCount(s)
  {
    if s != [] {
      SanitizeLength(s[1..]);
    }
  }

  /** A character survives exactly when it occurs in the input and is not reserved. */
  lemma {:induction false} SanitizeMembers(s: string, c: char)
    ensures c in Sanitize(s) <==> c in s && !IsReserved(c)
  {
    if s != [] {
      SanitizeMembers(s[1..], c);
      assert c in s <==> c == s[0] || c in s[1..];
    }
  }

  /** On a single character: a reserved one is dropped, any other one is kept. */
  lemma SanitizeChar(c: char)
    ensures Sanitize([c]) == if IsReserved(c) then [] else [c]
  {
    assert [c][1..] == [];
  }

  /** A string that is already clean is left as it is. */
  lemma {:induction false} SanitizeClean(s: string)
    requires IsClean(s)
    ensures Sanitize(s) == s
  {
    if s != [] {
      assert IsClean(s[1..]) by {
        forall i | 0 <= i < |s[1..]| ensures !IsReserved(s[1..][i]) {
          assert s[1..][i] == s[i + 1];
        }
      }
      SanitizeClean(s[1..]);
      assert [s[0]] + s[1..] == s;
    }
  }

  /** Sanitisation is idempotent. */
  lemma SanitizeIdempotent(s: string)
    ensures Sanitize(Sanitize(s)) == Sanitize(s)
  {
    SanitizeClean(Sanitize(s));
  }

  /** A string made only of reserved characters sanitises to nothing. */
  lemma {:induction false} SanitizeReserved(s: string)
    requires forall i :: 0 <= i < |s| ==> IsReserved(s[i])
    ensures Sanitize(s) == []
  {
    if s != [] {
      SanitizeReserved(s[1..]);
    }
  }

  // The two halves of the worked example below. The verifier checks a
  // sanitised string literal by unfolding `Sanitize` one character at a time,
  // at a cost that grows faster than the length and is highest for kept
  // characters, so each half is cut into runs: short runs are unfolded, a run
  // of kept letters goes through `SanitizeClean` and a run of reserved marks
  // through `SanitizeReserved`.
  lemma ExampleHead(head: string)
    requires head == "AC/DC: \""
    ensures Sanitize(head) == "ACDC "
  {
    var band, punct := head[..5], head[5..];
    assert band == "AC/DC" && punct == ": \"";
    assert head == band + punct;
    SanitizeAppend(band, punct);
    assert Sanitize("AC/DC") == "ACDC";
    assert Sanitize(": \"") == " ";
  }

  lemma ExampleTail(tail: string)
    requires tail == "Thunder\"?"
    ensures Sanitize(tail) == "Thunder"
  {
    var song, marks := tail[..7], tail[7..];
    assert song == "Thunder" && marks == "\"?";
    assert tail == song + marks;
    SanitizeAppend(song, marks);
    SanitizeClean(song);
    SanitizeReserved(marks);
  }

  /** The title `AC/DC: "Thunder"?` sanitises to `ACDC Thunder`. */
  lemma SanitizeExample(title: string)
    requires title == "AC/DC: \"Thunder\"?"
    ensures Sanitize(title) == "ACDC Thunder"
  {
    var head, tail := title[..8], title[8..];
    assert head == "AC/DC: \"" && tail == "Thunder\"?";
    assert title == head + tail;
    SanitizeAppend(head, tail);
    ExampleHead(head);
    ExampleTail(tail);
  }
}
