/** The server's trivial string helpers: stripping the device prefix from a physical
    channel name, and turning line breaks into the two-character escapes "\n", "\r"
    and back. */
module TextHelpers {
  import opened Common
  import opened Hardware

  /** `fullname.Substring(devicename.Length + 1)`; `None` stands for the
      ArgumentOutOfRangeException that Substring throws past the end of the string. */
  function JustTheChannelName(fullname: string, devicename: string): (r: Option<string>)
    ensures r.Some? <==> |devicename| + 1 <= |fullname|
    ensures r.Some? ==> |r.value| + |devicename| + 1 == |fullname|
    ensures r.Some? ==> fullname == fullname[..|devicename| + 1] + r.value
  {
    if |devicename| + 1 <= |fullname| then Some(fullname[|devicename| + 1..]) else None
  }

  /** Stripping a channel's own device name from its physical name gives back its channel name. */
  lemma ChannelNameOfPhysicalName(hc: HardwareChannel)
    ensures JustTheChannelName(PhysicalChannelName(hc), hc.deviceName) == Some(hc.channelName)
  {
    var p := PhysicalChannelName(hc);
    assert p[|hc.deviceName| + 1..] == hc.channelName;
  }

  /** `s.Replace(pat, rep)`: every occurrence of `pat`, scanning left to right without
      overlap, is replaced by `rep`. */
  function ReplaceAll(s: string, pat: string, rep: string): string
    requires |pat| > 0
    decreases |s|
  {
    if |s| < |pat| then s
    else if s[..|pat|] == pat then rep + ReplaceAll(s[|pat|..], pat, rep)
    else [s[0]] + ReplaceAll(s[1..], pat, rep)
  }

  /** `ReplaceCommonEscapeSequences`: "\\n" becomes a line feed, then "\\r" a carriage return. */
  function ReplaceCommonEscapeSequences(s: string): string {
    ReplaceAll(ReplaceAll(s, "\\n", "\n"), "\\r", "\r")
  }

  /** `InsertCommonEscapeSequences`: a line feed becomes "\\n", then a carriage return "\\r". */
  function InsertCommonEscapeSequences(s: string): string {
    ReplaceAll(ReplaceAll(s, "\n", "\\n"), "\r", "\\r")
  }

  /** What InsertCommonEscapeSequences makes of one character. */
  function Escaped(c: char): string {
    if c == '\n' then "\\n" else if c == '\r' then "\\r" else [c]
  }

  /** What replacing "\\n" alone makes of an escaped character. */
  function HalfUnescaped(c: char): string {
    if c == '\n' then "\n" else if c == '\r' then "\\r" else [c]
  }

  function EscapedAll(s: string): string
    decreases |s|
  {
    if s == [] then [] else Escaped(s[0]) + EscapedAll(s[1..])
  }

  function HalfUnescapedAll(s: string): string
    decreases |s|
  {
    if s == [] then [] else HalfUnescaped(s[0]) + HalfUnescapedAll(s[1..])
  }

  /** No backslash of `s` is followed by 'n' or 'r', so `s` holds nothing that looks like an escape. */
  predicate NoLiteralEscapes(s: string) {
    forall i :: 0 <= i < |s| - 1 && s[i] == '\\' ==> s[i + 1] != 'n' && s[i + 1] != 'r'
  }

  lemma ReplaceCharCons(c: char, s: string, p: char, rep: string)
    ensures ReplaceAll([c] + s, [p], rep) == (if c == p then rep else [c]) + ReplaceAll(s, [p], rep)
  {
    assert ([c] + s)[..1] == [c];
    assert ([c] + s)[1..] == s;
  }

  lemma {:induction false} ReplaceCharAppend(a: string, b: string, p: char, rep: string)
    ensures ReplaceAll(a + b, [p], rep) == ReplaceAll(a, [p], rep) + ReplaceAll(b, [p], rep)
    decreases |a|
  {
    if a == [] {
      assert a + b == b;
    } else {
      assert a + b == [a[0]] + (a[1..] + b);
      assert a == [a[0]] + a[1..];
      ReplaceCharCons(a[0], a[1..] + b, p, rep);
      ReplaceCharCons(a[0], a[1..], p, rep);
      ReplaceCharAppend(a[1..], b, p, rep);
    }
  }

  /** InsertCommonEscapeSequences works character by character. */
  lemma {:induction false} InsertIsEscapedAll(s: string)
    ensures InsertCommonEscapeSequences(s) == EscapedAll(s)
    decreases |s|
  {
    if s == [] {
    } else {
      var c, t := s[0], s[1..];
      assert s == [c] + t;
      ReplaceCharCons(c, t, '\n', "\\n");
      var once := (if c == '\n' then "\\n" else [c]);
      ReplaceCharAppend(once, ReplaceAll(t, "\n", "\\n"), '\r', "\\r");
      if c == '\n' {
        assert ReplaceAll("\\n", "\r", "\\r") == "\\n" by {
          ReplaceCharCons('\\', "n", '\r', "\\r");
          ReplaceCharCons('n', "", '\r', "\\r");
        }
      } else {
        ReplaceCharCons(c, "", '\r', "\\r");
      }
      InsertIsEscapedAll(t);
    }
  }

  /** Replacing "\\n" in an escaped string, one character at a time. */
  lemma {:induction false} FirstPassOfEscaped(s: string)
    requires NoLiteralEscapes(s)
    ensures ReplaceAll(EscapedAll(s), "\\n", "\n") == HalfUnescapedAll(s)
    decreases |s|
  {
    if s != [] {
      var c, t := s[0], s[1..];
      NoLiteralEscapesTail(s);
      FirstPassOfEscaped(t);
      if c == '\\' && t != [] {
        assert s[1] == t[0];
      }
      FirstPassStep(c, t);
    }
  }

  /** The tail of a string without literal escapes has none either. */
  lemma NoLiteralEscapesTail(s: string)
    requires s != [] && NoLiteralEscapes(s)
    ensures NoLiteralEscapes(s[1..])
  {
    var t := s[1..];
    forall i | 0 <= i < |t| - 1 && t[i] == '\\' ensures t[i + 1] != 'n' && t[i + 1] != 'r' {
      assert s[i + 1] == t[i] && s[i + 2] == t[i + 1];
    }
  }

  /** One character of the first pass: its escape is replaced on its own, unless it is a
      backslash followed by an 'n', which the precondition excludes. */
  lemma FirstPassStep(c: char, t: string)
    requires c == '\\' && t != [] ==> t[0] != 'n'
    ensures ReplaceAll(Escaped(c) + EscapedAll(t), "\\n", "\n") == HalfUnescaped(c) + ReplaceAll(EscapedAll(t), "\\n", "\n")
  {
    var rest := EscapedAll(t);
    if c == '\n' {
      FirstPassLineFeed(rest);
    } else if c == '\r' {
      FirstPassKeeps('r', rest);
      FirstPassKeeps('\\', ['r'] + rest);
      assert "\\r" + rest == ['\\'] + (['r'] + rest);
    } else {
      if t != [] {
        assert rest == Escaped(t[0]) + EscapedAll(t[1..]);
        assert rest[0] == Escaped(t[0])[0];
      }
      FirstPassKeeps(c, rest);
    }
  }

  /** An escaped line feed at the front is replaced. */
  lemma FirstPassLineFeed(rest: string)
    ensures ReplaceAll("\\n" + rest, "\\n", "\n") == "\n" + ReplaceAll(rest, "\\n", "\n")
  {
    assert ("\\n" + rest)[..2] == "\\n" && ("\\n" + rest)[2..] == rest;
  }

  /** A character that does not begin "\\n" at the front is kept. */
  lemma FirstPassKeeps(c: char, rest: string)
    requires c != '\\' || rest == [] || rest[0] != 'n'
    ensures ReplaceAll([c] + rest, "\\n", "\n") == [c] + ReplaceAll(rest, "\\n", "\n")
  {
    var x := [c] + rest;
    assert x[1..] == rest;
    if |x| >= 2 {
      assert x[..2][0] == c && x[..2][1] == rest[0];
    }
  }

  /** Replacing "\\r" after the first pass gives back the original characters. */
  lemma {:induction false} SecondPassOfHalfUnescaped(s: string)
    requires NoLiteralEscapes(s)
    ensures ReplaceAll(HalfUnescapedAll(s), "\\r", "\r") == s
    decreases |s|
  {
    if s != [] {
      var c, t := s[0], s[1..];
      var rest := HalfUnescapedAll(t);
      assert NoLiteralEscapes(t) by {
        forall i | 0 <= i < |t| - 1 && t[i] == '\\' ensures t[i + 1] != 'n' && t[i + 1] != 'r' {
          assert s[i + 1] == t[i] && s[i + 2] == t[i + 1];
        }
      }
      SecondPassOfHalfUnescaped(t);
      assert t != [] ==> rest == HalfUnescaped(t[0]) + HalfUnescapedAll(t[1..]);
      if c == '\r' {
        assert ("\\r" + rest)[..2] == "\\r" && ("\\r" + rest)[2..] == rest;
      } else {
        var x := [c] + rest;
        assert x[1..] == rest;
        if |x| >= 2 {
          assert x[..2] != "\\r" by {
            assert x[..2][0] == c && x[..2][1] == rest[0];
            if c == '\\' {
              assert t[0] != 'r' by { assert s[0] == '\\' && s[1] == t[0]; }
              assert HalfUnescaped(t[0])[0] == rest[0];
            }
          }
        }
      }
      assert s == [c] + t;
    }
  }

  /** Escaping and then unescaping gives back every string that holds no literal escapes. */
  lemma EscapeRoundTrip(s: string)
    requires NoLiteralEscapes(s)
    ensures ReplaceCommonEscapeSequences(InsertCommonEscapeSequences(s)) == s
  {
    InsertIsEscapedAll(s);
    FirstPassOfEscaped(s);
    SecondPassOfHalfUnescaped(s);
  }

  /** The condition is needed: a literal backslash-n is not preserved by the round trip. */
  lemma EscapeRoundTripNeedsNoLiteralEscapes()
    ensures ReplaceCommonEscapeSequences(InsertCommonEscapeSequences("\\n")) == "\n"
  {
    InsertIsEscapedAll("\\n");
    assert EscapedAll("\\n") == "\\n" by {
      assert "\\n"[1..] == "n";
      assert "n"[1..] == "";
    }
    assert ReplaceAll("\\n", "\\n", "\n") == "\n" by {
      assert "\\n"[..2] == "\\n" && "\\n"[2..] == "";
    }
    assert ReplaceAll("\n", "\\r", "\r") == "\n";
  }

  /** After InsertCommonEscapeSequences no line feed or carriage return is left. */
  lemma {:induction false} InsertRemovesLineBreaks(s: string)
    ensures forall i :: 0 <= i < |InsertCommonEscapeSequences(s)| ==>
      InsertCommonEscapeSequences(s)[i] != '\n' && InsertCommonEscapeSequences(s)[i] != '\r'
  {
    InsertIsEscapedAll(s);
    EscapedHasNoLineBreaks(s);
  }

  lemma {:induction false} EscapedHasNoLineBreaks(s: string)
    ensures forall i :: 0 <= i < |EscapedAll(s)| ==> EscapedAll(s)[i] != '\n' && EscapedAll(s)[i] != '\r'
    decreases |s|
  {
    if s != [] {
      EscapedHasNoLineBreaks(s[1..]);
    }
  }
}
