/** k8s/patch.go: escaping an annotation name into a JSON Pointer reference token (RFC 6901). */
module JsonPointer {
  import opened Text

  /** PatchPathEsacpe: two passes, tilde first. */
  function Escape(name: string): string {
    ReplaceAll(ReplaceAll(name, "~", "~0"), "/", "~1")
  }

  /** Section 4 of RFC 6901: first every "~1" becomes "/", then every "~0" becomes "~". */
  function Unescape(token: string): string {
    ReplaceAll(ReplaceAll(token, "~1", "/"), "~0", "~")
  }

  /** The same two passes in the wrong order. */
  function SwappedEscape(name: string): string {
    ReplaceAll(ReplaceAll(name, "/", "~1"), "~", "~0")
  }

  /** What one character becomes. */
  function EscapeChar(c: char): string {
    if c == '~' then "~0" else if c == '/' then "~1" else [c]
  }

  function EscapeChars(name: string): string {
    if name == "" then "" else EscapeChar(name[0]) + EscapeChars(name[1..])
  }

  /** A well-formed reference token: no '/', and every '~' starts "~0" or "~1". */
  predicate IsToken(t: string) {
    && '/' !in t
    && forall i :: 0 <= i < |t| && t[i] == '~' ==> i + 1 < |t| && t[i + 1] in "01"
  }

  lemma {:induction false} TildePassThenSlash(s: string)
    ensures ReplaceAll(ReplaceAll(s, "~", "~0"), "/", "~1") == EscapeChars(s)
  {
    if s != "" {
      TildePassThenSlash(s[1..]);
      var rest := ReplaceAll(s[1..], "~", "~0");
      TildePass(s);
      if s[0] == '~' {
        assert "~0" + rest == ['~'] + (['0'] + rest);
        ReplaceMiss('~', ['0'] + rest, "/", "~1");
        ReplaceMiss('0', rest, "/", "~1");
      } else if s[0] == '/' {
        ReplaceHit(rest, "/", "~1");
      } else {
        ReplaceMiss(s[0], rest, "/", "~1");
      }
    }
  }

  lemma TildePass(s: string)
    requires s != ""
    ensures ReplaceAll(s, "~", "~0") == (if s[0] == '~' then "~0" else [s[0]]) + ReplaceAll(s[1..], "~", "~0")
  {
    assert s == [s[0]] + s[1..];
    if s[0] == '~' {
      ReplaceHit(s[1..], "~", "~0");
    } else {
      ReplaceMiss(s[0], s[1..], "~", "~0");
    }
  }

  lemma EscapeIsCharMap(name: string)
    ensures Escape(name) == EscapeChars(name)
  {
    TildePassThenSlash(name);
  }

  /** Nothing to be escaped. */
  predicate Plain(s: string) {
    forall i :: 0 <= i < |s| ==> s[i] != '~' && s[i] != '/'
  }

  lemma {:induction false} EscapeCharsPlain(s: string, rest: string)
    requires Plain(s)
    ensures EscapeChars(s + rest) == s + EscapeChars(rest)
  {
    if s == "" {
      assert s + rest == rest && s + EscapeChars(rest) == EscapeChars(rest);
    } else {
      EscapeCharsPlain(s[1..], rest);
      assert (s + rest)[0] == s[0] && (s + rest)[1..] == s[1..] + rest;
      assert s + EscapeChars(rest) == [s[0]] + (s[1..] + EscapeChars(rest));
    }
  }

  /** A name with one slash, as most annotation names are. */
  lemma EscapeOneSlash(prefix: string, name: string)
    requires Plain(prefix) && Plain(name)
    ensures Escape(prefix + "/" + name) == prefix + "~1" + name
  {
    hide EscapeChars, Plain;
    EscapeIsCharMap(prefix + "/" + name);
    assert prefix + "/" + name == prefix + ("/" + name);
    EscapeCharsPlain(prefix, "/" + name);
    SlashThen(name);
    EscapeCharsPlain(name, "");
    assert name + "" == name;
    NoChars();
    assert prefix + ("~1" + name) == prefix + "~1" + name;
  }

  lemma SlashThen(name: string)
    ensures EscapeChars("/" + name) == "~1" + EscapeChars(name)
  {
    assert ("/" + name)[1..] == name;
  }

  lemma NoChars()
    ensures EscapeChars("") == ""
  {
  }

  /** The first unescaping pass takes the slashes back and leaves the tilde pass standing. */
  lemma {:induction false} FirstPassBack(s: string)
    ensures ReplaceAll(EscapeChars(s), "~1", "/") == ReplaceAll(s, "~", "~0")
  {
    if s != "" {
      FirstPassBack(s[1..]);
      TildePass(s);
      var rest := EscapeChars(s[1..]);
      if s[0] == '~' {
        assert "~0" + rest == ['~'] + (['0'] + rest);
        ReplaceNearMiss('0', rest, "~1", "/");
      } else if s[0] == '/' {
        ReplaceHit(rest, "~1", "/");
      } else {
        ReplaceMiss(s[0], rest, "~1", "/");
      }
    }
  }

  lemma {:induction false} SecondPassBack(s: string)
    ensures ReplaceAll(ReplaceAll(s, "~", "~0"), "~0", "~") == s
  {
    if s != "" {
      SecondPassBack(s[1..]);
      TildePass(s);
      var rest := ReplaceAll(s[1..], "~", "~0");
      if s[0] == '~' {
        ReplaceHit(rest, "~0", "~");
      } else {
        ReplaceMiss(s[0], rest, "~0", "~");
      }
    }
  }

  /** Escaping is undone by the unescaping of RFC 6901, for every string. */
  lemma EscapeRoundTrip(name: string)
    ensures Unescape(Escape(name)) == name
  {
    EscapeIsCharMap(name);
    FirstPassBack(name);
    SecondPassBack(name);
  }

  lemma EscapeInjective(a: string, b: string)
    requires Escape(a) == Escape(b)
    ensures a == b
  {
    EscapeRoundTrip(a);
    EscapeRoundTrip(b);
  }

  lemma {:induction false} EscapeIsToken(name: string)
    ensures IsToken(Escape(name))
  {
    EscapeIsCharMap(name);
    if name != "" {
      EscapeIsToken(name[1..]);
      EscapeIsCharMap(name[1..]);
      var head, tail := EscapeChar(name[0]), EscapeChars(name[1..]);
      var t := head + tail;
      forall i | 0 <= i < |t| && t[i] == '~' ensures i + 1 < |t| && t[i + 1] in "01" {
        if i >= |head| {
          assert tail[i - |head|] == '~';
          assert tail[i - |head| + 1] in "01";
        }
      }
    }
  }

  /** What the round trip turns into when the passes are swapped: every '/' comes back as "~1". */
  lemma {:induction false} SwappedComesBackAs(s: string)
    ensures Unescape(SwappedEscape(s)) == ReplaceAll(s, "/", "~1")
  {
    SwappedFirstPass(ReplaceAll(s, "/", "~1"));
    SecondPassBack(ReplaceAll(s, "/", "~1"));
  }

  lemma {:induction false} SwappedFirstPass(t: string)
    ensures ReplaceAll(ReplaceAll(t, "~", "~0"), "~1", "/") == ReplaceAll(t, "~", "~0")
  {
    if t != "" {
      SwappedFirstPass(t[1..]);
      TildePass(t);
      var rest := ReplaceAll(t[1..], "~", "~0");
      if t[0] == '~' {
        assert "~0" + rest == ['~'] + (['0'] + rest);
        ReplaceNearMiss('0', rest, "~1", "/");
      } else {
        ReplaceMiss(t[0], rest, "~1", "/");
      }
    }
  }

  function Slashes(s: string): nat {
    if s == "" then 0 else (if s[0] == '/' then 1 else 0) + Slashes(s[1..])
  }

  lemma {:induction false} SlashPassLength(s: string)
    ensures |ReplaceAll(s, "/", "~1")| == |s| + Slashes(s)
    ensures Slashes(s) == 0 <==> '/' !in s
    ensures Slashes(s) == 0 ==> ReplaceAll(s, "/", "~1") == s
  {
    if s != "" {
      SlashPassLength(s[1..]);
      assert s == [s[0]] + s[1..];
      assert ("/" <= s) == (s[0] == '/');
    }
  }

  /** Swapping the passes keeps the round trip exactly for names without a '/'. */
  lemma SwappedRoundTripIff(s: string)
    ensures Unescape(SwappedEscape(s)) == s <==> '/' !in s
  {
    SwappedComesBackAs(s);
    SlashPassLength(s);
  }
}
