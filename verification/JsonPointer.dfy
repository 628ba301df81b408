/**
  JSON pointers in fragment form, with the escapes of section 4 of RFC 6901.
 */
module JsonPointer {
  // ---------------------------------------------------------------------------------------
  // Escapes

  /** Replace every occurrence of a tilde followed by `digit`, left to right. */
  function ReplaceEscape(s: string, digit: char, put: char): string {
    if s == "" then ""
    else if |s| >= 2 && s[0] == '~' && s[1] == digit then [put] + ReplaceEscape(s[2..], digit, put)
    else [s[0]] + ReplaceEscape(s[1..], digit, put)
  }

  /** How a reference token is read: first every `~1`, then every `~0`. */
  function Unescape(s: string): string {
    ReplaceEscape(ReplaceEscape(s, '1', '/'), '0', '~')
  }

  /** The meaning of the escapes: one pass in which each is read where it stands. */
  function Meaning(s: string): string {
    if s == "" then ""
    else if |s| >= 2 && s[0] == '~' && s[1] == '1' then "/" + Meaning(s[2..])
    else if |s| >= 2 && s[0] == '~' && s[1] == '0' then "~" + Meaning(s[2..])
    else [s[0]] + Meaning(s[1..])
  }

  lemma FirstKept(s: string)
    requires s != "" && s[0] != '0'
    ensures ReplaceEscape(s, '1', '/') != "" && ReplaceEscape(s, '1', '/')[0] != '0'
  {
  }

  /** The two passes, in that order, read every token as one pass does. */
  lemma {:induction false} UnescapeMeans(s: string)
    ensures Unescape(s) == Meaning(s)
    decreases |s|
  {
    if s != "" {
      var once := ReplaceEscape(s, '1', '/');
      if |s| >= 2 && s[0] == '~' && s[1] == '1' {
        UnescapeMeans(s[2..]);
        assert once[1..] == ReplaceEscape(s[2..], '1', '/');
      } else if |s| >= 2 && s[0] == '~' && s[1] == '0' {
        UnescapeMeans(s[2..]);
        assert s[1..][1..] == s[2..];
        assert s[1..][0] == '0';
        assert ReplaceEscape(s[1..], '1', '/') == ['0'] + ReplaceEscape(s[2..], '1', '/');
        assert once == ['~', '0'] + ReplaceEscape(s[2..], '1', '/');
        assert once[2..] == ReplaceEscape(s[2..], '1', '/');
      } else {
        UnescapeMeans(s[1..]);
        assert once[1..] == ReplaceEscape(s[1..], '1', '/');
        if |s| >= 2 && s[0] == '~' {
          FirstKept(s[1..]);
        }
      }
    }
  }

  function Escape(s: string): string {
    if s == "" then ""
    else (if s[0] == '~' then "~0" else if s[0] == '/' then "~1" else [s[0]]) + Escape(s[1..])
  }

  lemma {:induction false} EscapeRoundTrip(s: string)
    ensures Unescape(Escape(s)) == s
    ensures '/' !in Escape(s)
    decreases |s|
  {
    UnescapeMeans(Escape(s));
    if s != "" {
      EscapeRoundTrip(s[1..]);
      UnescapeMeans(Escape(s[1..]));
      var e := Escape(s);
      if s[0] == '~' || s[0] == '/' {
        assert e[2..] == Escape(s[1..]);
      } else {
        assert e[1..] == Escape(s[1..]);
      }
      assert s == [s[0]] + s[1..];
    }
  }

  /** The two passes in the other order. */
  function OtherOrder(s: string): string {
    ReplaceEscape(ReplaceEscape(s, '0', '~'), '1', '/')
  }

  /** Places where an escaped tilde stands before a digit one. */
  function TildeOnes(s: string): nat {
    if s == "" then 0
    else (if |s| >= 3 && s[0] == '~' && s[1] == '0' && s[2] == '1' then 1 else 0) + TildeOnes(s[1..])
  }

  lemma HeadKept(s: string)
    requires s != "" && s[0] != '~'
    ensures ReplaceEscape(s, '0', '~') == [s[0]] + ReplaceEscape(s[1..], '0', '~')
  {
  }

  /** The other order makes one character of each such place where the meaning has two. */
  lemma {:induction false} OtherOrderShortens(s: string)
    ensures |OtherOrder(s)| + TildeOnes(s) == |Meaning(s)|
    ensures TildeOnes(s) == 0 ==> OtherOrder(s) == Meaning(s)
    decreases |s|
  {
    if s != "" {
      var once := ReplaceEscape(s, '0', '~');
      if |s| >= 2 && s[0] == '~' && s[1] == '0' {
        assert s[1..][1..] == s[2..];
        assert TildeOnes(s[1..]) == TildeOnes(s[2..]);
        assert once == "~" + ReplaceEscape(s[2..], '0', '~');
        if |s| >= 3 && s[2] == '1' {
          assert s[2..][1..] == s[3..];
          OtherOrderShortens(s[3..]);
          HeadKept(s[2..]);
          assert once == "~1" + ReplaceEscape(s[3..], '0', '~');
          assert once[2..] == ReplaceEscape(s[3..], '0', '~');
          assert TildeOnes(s[2..]) == TildeOnes(s[3..]);
          assert Meaning(s[2..]) == "1" + Meaning(s[3..]);
        } else {
          OtherOrderShortens(s[2..]);
          FirstIsNotOne(s[2..]);
          assert once[1..] == ReplaceEscape(s[2..], '0', '~');
        }
      } else if |s| >= 2 && s[0] == '~' && s[1] == '1' {
        OtherOrderShortens(s[2..]);
        assert s[1..][1..] == s[2..];
        HeadKept(s[1..]);
        assert once == "~1" + ReplaceEscape(s[2..], '0', '~');
        assert once[2..] == ReplaceEscape(s[2..], '0', '~');
        assert TildeOnes(s) == TildeOnes(s[2..]);
      } else {
        OtherOrderShortens(s[1..]);
        assert once[1..] == ReplaceEscape(s[1..], '0', '~');
        if s[0] == '~' {
          FirstIsNotOne(s[1..]);
        }
      }
    }
  }

  lemma FirstIsNotOne(s: string)
    requires s == "" || s[0] != '1'
    ensures ReplaceEscape(s, '0', '~') == "" || ReplaceEscape(s, '0', '~')[0] != '1'
  {
  }

  /** The order of the passes matters exactly for tokens that hold an escaped tilde before a digit one. */
  lemma OtherOrderExact(s: string)
    ensures OtherOrder(s) == Unescape(s) <==> TildeOnes(s) == 0
  {
    OtherOrderShortens(s);
    UnescapeMeans(s);
  }

  // ---------------------------------------------------------------------------------------
  // Tokens

  function Split(s: string): (parts: seq<string>)
    ensures parts != []
  {
    if s == "" then [""]
    else if s[0] == '/' then [""] + Split(s[1..])
    else
      var rest := Split(s[1..]);
      [[s[0]] + rest[0]] + rest[1..]
  }

  function Join(parts: seq<string>): string
    requires parts != []
  {
    if |parts| == 1 then parts[0] else parts[0] + "/" + Join(parts[1..])
  }

  lemma {:induction false} SplitAt(head: string, rest: string)
    requires '/' !in head
    ensures Split(head + "/" + rest) == [head] + Split(rest)
    decreases |head|
  {
    var s := head + "/" + rest;
    if head == "" {
      assert s[1..] == rest;
    } else {
      assert s[1..] == head[1..] + "/" + rest;
      SplitAt(head[1..], rest);
      assert head == [head[0]] + head[1..];
    }
  }

  lemma {:induction false} SplitWhole(s: string)
    requires '/' !in s
    ensures Split(s) == [s]
    decreases |s|
  {
    if s != "" {
      SplitWhole(s[1..]);
      assert s == [s[0]] + s[1..];
    }
  }

  lemma {:induction false} SplitJoin(parts: seq<string>)
    requires parts != [] && forall i :: 0 <= i < |parts| ==> '/' !in parts[i]
    ensures Split(Join(parts)) == parts
    decreases |parts|
  {
    if |parts| == 1 {
      SplitWhole(parts[0]);
    } else {
      SplitJoin(parts[1..]);
      SplitAt(parts[0], Join(parts[1..]));
    }
  }

  // ---------------------------------------------------------------------------------------
  // Pointers

  function RemovePrefix(pointer: string): string {
    if |pointer| >= 2 && pointer[..2] == "#/" then pointer[2..] else pointer
  }

  function MapUnescape(parts: seq<string>): (r: seq<string>)
    ensures |r| == |parts| && forall i :: 0 <= i < |parts| ==> r[i] == Unescape(parts[i])
  {
    seq(|parts|, i requires 0 <= i < |parts| => Unescape(parts[i]))
  }

  /** The keys a pointer names. */
  function Keys(pointer: string): (keys: seq<string>)
    ensures keys != []
  {
    MapUnescape(Split(RemovePrefix(pointer)))
  }

  function MapEscape(keys: seq<string>): (r: seq<string>)
    ensures |r| == |keys| && forall i :: 0 <= i < |keys| ==> r[i] == Escape(keys[i])
  {
    seq(|keys|, i requires 0 <= i < |keys| => Escape(keys[i]))
  }

  function Render(keys: seq<string>): string
    requires keys != []
  {
    "#/" + Join(MapEscape(keys))
  }

  /** Every list of keys, whatever characters they hold, is read back from its pointer. */
  lemma PointerRoundTrip(keys: seq<string>)
    requires keys != []
    ensures Keys(Render(keys)) == keys
  {
    var parts := MapEscape(keys);
    forall i | 0 <= i < |keys| ensures '/' !in parts[i] && Unescape(parts[i]) == keys[i] {
      EscapeRoundTrip(keys[i]);
    }
    SplitJoin(parts);
    var pointer := Render(keys);
    assert pointer[..2] == "#/" && pointer[2..] == Join(parts);
  }

  const COMPONENTS := "components"
  const COMPONENT_PREFIX := "#/components/"

  predicate IsComponentRef(s: string) {
    |s| >= |COMPONENT_PREFIX| && s[..|COMPONENT_PREFIX|] == COMPONENT_PREFIX
  }

  lemma {:induction false} PlainIsKept(s: string)
    requires '~' !in s
    ensures Meaning(s) == s
    decreases |s|
  {
    if s != "" {
      PlainIsKept(s[1..]);
      assert s == [s[0]] + s[1..];
    }
  }

  /** A component reference names something inside the components. */
  lemma ComponentKeys(pointer: string)
    requires IsComponentRef(pointer)
    ensures |Keys(pointer)| >= 2 && Keys(pointer)[0] == COMPONENTS
  {
    var rest := pointer[|COMPONENT_PREFIX|..];
    assert pointer == COMPONENT_PREFIX + rest;
    assert COMPONENT_PREFIX == "#/" + COMPONENTS + "/";
    assert pointer[..2] == "#/";
    assert RemovePrefix(pointer) == COMPONENTS + "/" + rest;
    SplitAt(COMPONENTS, rest);
    PlainIsKept(COMPONENTS);
    UnescapeMeans(COMPONENTS);
  }
}
