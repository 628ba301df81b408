/** Codes and device ids in the order of their characters, and sorted lists without repetition. */
module CodeOrder {
  predicate NotAfter(a: string, b: string) {
    a == [] || (b != [] && (a[0] < b[0] || (a[0] == b[0] && NotAfter(a[1..], b[1..]))))
  }

  lemma {:induction false} NotAfterTotal(a: string, b: string)
    ensures NotAfter(a, b) || NotAfter(b, a)
  {
    if a != [] && b != [] && a[0] == b[0] {
      NotAfterTotal(a[1..], b[1..]);
    }
  }

  lemma {:induction false} NotAfterTransitive(a: string, b: string, c: string)
    requires NotAfter(a, b) && NotAfter(b, c)
    ensures NotAfter(a, c)
  {
    if a != [] && a[0] == b[0] == c[0] {
      NotAfterTransitive(a[1..], b[1..], c[1..]);
    }
  }

  lemma {:induction false} NotAfterAntisymmetric(a: string, b: string)
    requires NotAfter(a, b) && NotAfter(b, a)
    ensures a == b
  {
    if a != [] {
      NotAfterAntisymmetric(a[1..], b[1..]);
      assert a == [a[0]] + a[1..] && b == [b[0]] + b[1..];
    }
  }

  predicate Precedes(a: string, b: string) {
    NotAfter(a, b) && a != b
  }

  /** Sorted, no code twice. */
  ghost predicate Ascending(codes: seq<string>) {
    forall i, j :: 0 <= i < j < |codes| ==> Precedes(codes[i], codes[j])
  }

  function InsertCode(code: string, codes: seq<string>): seq<string> {
    if codes == [] then [code]
    else if code == codes[0] then codes
    else if NotAfter(code, codes[0]) then [code] + codes
    else [codes[0]] + InsertCode(code, codes[1..])
  }

  lemma PrecedesTransitive(a: string, b: string, c: string)
    requires Precedes(a, b) && Precedes(b, c)
    ensures Precedes(a, c)
  {
    NotAfterTransitive(a, b, c);
    if a == c {
      NotAfterAntisymmetric(a, b);
    }
  }

  lemma PrependCode(code: string, codes: seq<string>)
    requires Ascending(codes) && forall c :: c in codes ==> Precedes(code, c)
    ensures Ascending([code] + codes)
  {
    var all := [code] + codes;
    forall i, j | 0 <= i < j < |all| ensures Precedes(all[i], all[j]) {
      assert all[j] == codes[j - 1] && codes[j - 1] in codes;
      if i > 0 {
        assert all[i] == codes[i - 1];
      }
    }
  }

  lemma RestAscends(codes: seq<string>)
    requires Ascending(codes) && codes != []
    ensures Ascending(codes[1..]) && forall c :: c in codes[1..] ==> Precedes(codes[0], c)
  {
    forall c | c in codes[1..] ensures Precedes(codes[0], c) {
      var i :| 0 <= i < |codes[1..]| && codes[1..][i] == c;
      assert codes[i + 1] == c;
    }
  }

  lemma {:induction false} InsertCodeSorts(code: string, codes: seq<string>)
    requires Ascending(codes)
    ensures Ascending(InsertCode(code, codes))
    ensures forall c :: c in InsertCode(code, codes) <==> c == code || c in codes
    decreases |codes|
  {
    if codes != [] && code != codes[0] {
      RestAscends(codes);
      assert codes == [codes[0]] + codes[1..];
      if NotAfter(code, codes[0]) {
        forall c | c in codes ensures Precedes(code, c) {
          if c != codes[0] {
            PrecedesTransitive(code, codes[0], c);
          }
        }
        PrependCode(code, codes);
      } else {
        InsertCodeSorts(code, codes[1..]);
        NotAfterTotal(code, codes[0]);
        PrependCode(codes[0], InsertCode(code, codes[1..]));
      }
    }
  }

  lemma HasMember(codes: seq<string>)
    ensures codes != [] ==> exists c :: c in codes
  {
    if codes != [] {
      var c := codes[0];
      assert c in codes;
    }
  }

  /** The sorted list of a set of codes is unique, whatever order they came in. */
  lemma {:induction false} AscendingUnique(a: seq<string>, b: seq<string>)
    requires Ascending(a) && Ascending(b)
    requires forall c :: c in a <==> c in b
    ensures a == b
    decreases |a|
  {
    HasMember(a);
    HasMember(b);
    if a != [] && b != [] {
      FirstIsLeast(a, b);
      RestAscends(a);
      RestAscends(b);
      assert a == [a[0]] + a[1..] && b == [b[0]] + b[1..];
      forall c ensures c in a[1..] <==> c in b[1..] {
        assert c in a[1..] <==> c in a && c != a[0];
        assert c in b[1..] <==> c in b && c != b[0];
      }
      AscendingUnique(a[1..], b[1..]);
    }
  }

  lemma FirstIsLeast(a: seq<string>, b: seq<string>)
    requires a != [] && b != [] && Ascending(a) && Ascending(b) && forall c :: c in a <==> c in b
    ensures a[0] == b[0]
  {
    var x, y := a[0], b[0];
    assert x in a && y in b;
    assert x in b && y in a;
    if x != y {
      RestAscends(a);
      RestAscends(b);
      NotAfterAntisymmetric(x, y);
    }
  }
}
