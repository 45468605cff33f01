/**
 * The relay identity the aggregator learns from the control port: the
 * whitespace stripping and the length and character checks of the setters,
 * and the sorted, duplicate-free ORPort and DirPort lists.
 */
module Identity {
  import opened Types

  // ---------------------------------------------------------------- characters

  /** string.whitespace: space, tab, newline, carriage return, vertical tab, form feed. */
  predicate IsSpace(c: char) {
    c == ' ' || c == '\t' || c == '\n' || c == '\r' || c == '\U{000B}' || c == '\U{000C}'
  }

  predicate IsDigit(c: char) {
    '0' <= c <= '9'
  }

  /** string.ascii_letters + string.digits */
  predicate IsAsciiAlnum(c: char) {
    'a' <= c <= 'z' || 'A' <= c <= 'Z' || IsDigit(c)
  }

  /** string.hexdigits */
  predicate IsHexDigit(c: char) {
    IsDigit(c) || 'a' <= c <= 'f' || 'A' <= c <= 'F'
  }

  /** string.printable: the visible ASCII characters, space and the other whitespace. */
  predicate IsPrintable(c: char) {
    ' ' <= c <= '~' || IsSpace(c)
  }

  // ---------------------------------------------------------------- strip

  /** The text without its leading whitespace. */
  function StripLeft(s: string): (r: string)
    ensures |r| <= |s| && r == s[|s| - |r|..]
    ensures forall k :: 0 <= k < |s| - |r| ==> IsSpace(s[k])
    ensures r != [] ==> !IsSpace(r[0])
  {
    if s != [] && IsSpace(s[0]) then
      var t := StripLeft(s[1..]);
      assert s[1..][|s| - 1 - |t|..] == s[|s| - |t|..];
      assert forall k :: 1 <= k < |s| ==> s[1..][k - 1] == s[k];
      t
    else s
  }

  /** The text without its trailing whitespace. */
  function StripRight(s: string): (r: string)
    ensures |r| <= |s| && r == s[..|r|]
    ensures forall k :: |r| <= k < |s| ==> IsSpace(s[k])
    ensures r != [] ==> !IsSpace(r[|r| - 1])
  {
    if s != [] && IsSpace(s[|s| - 1]) then StripRight(s[..|s| - 1]) else s
  }

  /** str.strip(): the text without whitespace at either end. */
  function Strip(s: string): string {
    StripRight(StripLeft(s))
  }

  /**
   * Strip removes whitespace and only whitespace, from the two ends only: its
   * result is a slice of the text with nothing but whitespace around it.
   */
  lemma StripSlice(s: string)
    ensures exists i, j :: 0 <= i <= j <= |s| && Strip(s) == s[i..j] && OnlySpaceOutside(s, i, j)
  {
    var l := StripLeft(s);
    var r := StripRight(l);
    var i := |s| - |l|;
    assert l == s[i..];
    assert r == l[..|r|] == s[i..i + |r|];
    forall k | i + |r| <= k < |s| ensures IsSpace(s[k]) {
      assert s[k] == l[k - i];
    }
    assert OnlySpaceOutside(s, i, i + |r|);
  }

  /** The result of Strip neither starts nor ends with whitespace. */
  lemma StripEnds(s: string)
    ensures Strip(s) != [] ==> !IsSpace(Strip(s)[0]) && !IsSpace(Strip(s)[|Strip(s)| - 1])
  {
    var l := StripLeft(s);
    var r := StripRight(l);
    if r != [] {
      assert r[0] == l[0];
    }
  }

  /** Stripping twice is stripping once. */
  lemma StripIdempotent(s: string)
    ensures Strip(Strip(s)) == Strip(s)
  {
    StripEnds(s);
    StripLeftNoop(Strip(s));
    StripRightNoop(Strip(s));
  }

  /** Everything before position i and from position j on is whitespace. */
  predicate OnlySpaceOutside(s: string, i: int, j: int)
    requires 0 <= i <= j <= |s|
  {
    (forall k :: 0 <= k < i ==> IsSpace(s[k])) && (forall k :: j <= k < |s| ==> IsSpace(s[k]))
  }

  lemma StripLeftNoop(s: string)
    requires s == [] || !IsSpace(s[0])
    ensures StripLeft(s) == s
  {
  }

  lemma StripRightNoop(s: string)
    requires s == [] || !IsSpace(s[|s| - 1])
    ensures StripRight(s) == s
  {
  }

  // ---------------------------------------------------------------- validation

  /** set_nickname's check: 1 to 19 ASCII letters and digits. */
  predicate ValidNickname(nickname: string) {
    1 <= |nickname| <= 19 && forall k :: 0 <= k < |nickname| ==> IsAsciiAlnum(nickname[k])
  }

  /** validate_tor_port: 1 to 200 printable characters. */
  predicate ValidTorPort(port: string) {
    1 <= |port| <= 200 && forall k :: 0 <= k < |port| ==> IsPrintable(port[k])
  }

  /** set_address's check: 7 to 15 characters, each a digit or a dot. */
  predicate ValidAddress(address: string) {
    7 <= |address| <= 15 && forall k :: 0 <= k < |address| ==> IsDigit(address[k]) || address[k] == '.'
  }

  /** set_fingerprint's check: exactly 40 hexadecimal digits. */
  predicate ValidFingerprint(fingerprint: string) {
    |fingerprint| == 40 && forall k :: 0 <= k < |fingerprint| ==> IsHexDigit(fingerprint[k])
  }

  /**
   * validate_version: the stripped version when it is non-empty and
   * printable, None otherwise. (What it logs about the old version does not
   * change the result.)
   */
  function ValidateVersion(version: string): (r: Option<string>)
    ensures r.Some? <==> ValidVersion(Strip(version))
    ensures r.Some? ==> r.value == Strip(version) && ValidVersion(r.value)
  {
    var v := Strip(version);
    if |v| > 0 && forall k :: 0 <= k < |v| ==> IsPrintable(v[k]) then Some(v) else None
  }

  /** What validate_version accepts once stripped: a non-empty printable version. */
  predicate ValidVersion(version: string) {
    |version| > 0 && forall k :: 0 <= k < |version| ==> IsPrintable(version[k])
  }

  // ---------------------------------------------------------------- port lists

  /** Python's string order: the first differing character decides, and a proper prefix comes first. */
  predicate StrLess(a: string, b: string) {
    if a == [] then b != []
    else if b == [] then false
    else if a[0] != b[0] then a[0] < b[0]
    else StrLess(a[1..], b[1..])
  }

  lemma {:induction false} StrLessIrreflexive(a: string)
    ensures !StrLess(a, a)
  {
    if a != [] {
      StrLessIrreflexive(a[1..]);
    }
  }

  lemma {:induction false} StrLessTransitive(a: string, b: string, c: string)
    requires StrLess(a, b) && StrLess(b, c)
    ensures StrLess(a, c)
  {
    if a != [] && b != [] && c != [] && a[0] == b[0] && b[0] == c[0] {
      StrLessTransitive(a[1..], b[1..], c[1..]);
    }
  }

  lemma {:induction false} StrLessTotal(a: string, b: string)
    requires a != b
    ensures StrLess(a, b) || StrLess(b, a)
  {
    if a != [] && b != [] && a[0] == b[0] {
      assert a == [a[0]] + a[1..] && b == [b[0]] + b[1..];
      StrLessTotal(a[1..], b[1..]);
    }
  }

  /** Ascending in Python's string order, with no entry twice. */
  predicate StrictlySorted(ports: seq<string>) {
    forall i, j :: 0 <= i < j < |ports| ==> StrLess(ports[i], ports[j])
  }

  lemma StrictlySortedDistinct(ports: seq<string>, i: int, j: int)
    requires StrictlySorted(ports) && 0 <= i < j < |ports|
    ensures ports[i] != ports[j]
  {
    StrLessIrreflexive(ports[i]);
  }

  /** A strictly sorted list is determined by its entries: two with the same entries are the same list. */
  lemma {:induction false} SortedUnique(a: seq<string>, b: seq<string>)
    requires StrictlySorted(a) && StrictlySorted(b)
    requires forall x :: x in a <==> x in b
    ensures a == b
  {
    if a != [] {
      assert a[0] in b;
    }
    if b != [] {
      assert b[0] in a;
    }
    if a != [] && b != [] {
      if a[0] != b[0] {
        SortedFirst(a, b[0]);
        SortedFirst(b, a[0]);
        StrLessTransitive(a[0], b[0], a[0]);
        StrLessIrreflexive(a[0]);
      }
      forall x ensures x in a[1..] <==> x in b[1..] {
        if x in a[1..] {
          TailMember(a, b, x);
        }
        if x in b[1..] {
          TailMember(b, a, x);
        }
      }
      SortedUnique(a[1..], b[1..]);
      assert a == [a[0]] + a[1..] && b == [b[0]] + b[1..];
    }
  }

  /** The first entry of a strictly sorted list is below every other entry. */
  lemma SortedFirst(a: seq<string>, x: string)
    requires StrictlySorted(a) && a != [] && x in a && x != a[0]
    ensures StrLess(a[0], x)
  {
    var j :| 0 <= j < |a| && a[j] == x;
  }

  /** Past their common first entry, two sorted lists with the same entries still share them. */
  lemma TailMember(a: seq<string>, b: seq<string>, x: string)
    requires StrictlySorted(a) && StrictlySorted(b) && a != [] && b != [] && a[0] == b[0]
    requires forall y :: y in a <==> y in b
    requires x in a[1..]
    ensures x in b[1..]
  {
    var i :| 1 <= i < |a| && a[i] == x;
    StrictlySortedDistinct(a, 0, i);
    assert x in b;
    var k :| 0 <= k < |b| && b[k] == x;
    assert b[1..][k - 1] == x;
  }

  /**
   * add_tor_port: a port already in the list is ignored; otherwise it is
   * appended and the list sorted, which for a sorted list moves the new
   * entry left past every larger one.
   */
  method AddTorPort(port: string, ports: seq<string>) returns (r: seq<string>)
    requires StrictlySorted(ports)
    ensures StrictlySorted(r)
    ensures forall x :: x in r <==> x in ports || x == port
    ensures port in ports ==> r == ports
    ensures |r| == if port in ports then |ports| else |ports| + 1
  {
    if port in ports {
      return ports;
    }
    r := ports + [port];
    var i := |ports|;
    InsertStart(port, ports);
    while i > 0 && StrLess(r[i], r[i - 1])
      invariant InsertProgress(port, ports, r, i)
    {
      var prev := r[i - 1];
      InsertStep(port, ports, r, i);
      r := r[i - 1 := port][i := prev];
      i := i - 1;
    }
    InsertDone(port, ports, r, i);
  }

  /**
   * The state of add_tor_port's sort after the new port has moved left to
   * position i: the other entries are the old ones, in order, and all those
   * right of the new port are larger than it.
   */
  ghost predicate InsertProgress(port: string, ports: seq<string>, r: seq<string>, i: int) {
    && port !in ports
    && StrictlySorted(ports)
    && 0 <= i <= |ports|
    && |r| == |ports| + 1
    && r[i] == port
    && multiset(r) == multiset(ports) + multiset{port}
    && (forall k :: 0 <= k < |r| && k != i ==> r[k] in ports)
    && (forall a, b :: 0 <= a < b < |r| && a != i && b != i ==> StrLess(r[a], r[b]))
    && (forall b :: i < b < |r| ==> StrLess(port, r[b]))
  }

  lemma InsertStart(port: string, ports: seq<string>)
    requires StrictlySorted(ports) && port !in ports
    ensures InsertProgress(port, ports, ports + [port], |ports|)
  {
    var r := ports + [port];
    assert forall k :: 0 <= k < |ports| ==> r[k] == ports[k];
  }

  lemma InsertStep(port: string, ports: seq<string>, r: seq<string>, i: int)
    requires InsertProgress(port, ports, r, i) && i > 0 && StrLess(r[i], r[i - 1])
    ensures InsertProgress(port, ports, r[i - 1 := port][i := r[i - 1]], i - 1)
  {
    var r' := r[i - 1 := port][i := r[i - 1]];
    assert forall k :: 0 <= k < |r| && k != i && k != i - 1 ==> r'[k] == r[k];
    assert r'[i] == r[i - 1];
    forall a, b | 0 <= a < b < |r'| && a != i - 1 && b != i - 1 ensures StrLess(r'[a], r'[b]) {
      if a == i {
        assert StrLess(r[i - 1], r[b]);
      } else if b == i {
        assert StrLess(r[a], r[i - 1]);
      }
    }
    forall b | i - 1 < b < |r'| ensures StrLess(port, r'[b]) {
      if b == i {
        assert StrLess(port, r[i - 1]);
      }
    }
  }

  lemma InsertDone(port: string, ports: seq<string>, r: seq<string>, i: int)
    requires InsertProgress(port, ports, r, i) && !(i > 0 && StrLess(r[i], r[i - 1]))
    ensures StrictlySorted(r)
    ensures forall x :: x in r <==> x in ports || x == port
    ensures |r| == |ports| + 1
  {
    forall x ensures x in r <==> x in ports || x == port {
      assert x in r <==> x in multiset(r);
      assert x in ports <==> x in multiset(ports);
    }
    forall a, b | 0 <= a < b < |r| ensures StrLess(r[a], r[b]) {
      if b == i && a < i {
        StrLessTotal(r[i - 1], port);
        if a < i - 1 {
          StrLessTransitive(r[a], r[i - 1], port);
        }
      }
    }
  }

  /**
   * get_tor_port: None when no port is known, otherwise ", ".join(ports):
   * every port, in list order, at its offset, each after the first preceded
   * by ", ", and nothing after the last.
   */
  function JoinPorts(ports: seq<string>): (r: Option<string>)
    ensures r.None? <==> ports == []
    ensures r.Some? ==> |r.value| == JoinOffset(ports, |ports| - 1) + |ports[|ports| - 1]|
    ensures r.Some? ==> forall i :: 0 <= i < |ports| ==>
      JoinOffset(ports, i) + |ports[i]| <= |r.value|
      && r.value[JoinOffset(ports, i)..JoinOffset(ports, i) + |ports[i]|] == ports[i]
    ensures r.Some? ==> forall i :: 0 < i < |ports| ==>
      2 <= JoinOffset(ports, i) <= |r.value| && r.value[JoinOffset(ports, i) - 2..JoinOffset(ports, i)] == ", "
  {
    if ports == [] then None
    else
      JoinLayout(ports);
      Some(Join(ports))
  }

  function Join(ports: seq<string>): (r: string)
    requires ports != []
    ensures ports[0] <= r
  {
    if |ports| == 1 then ports[0] else ports[0] + ", " + Join(ports[1..])
  }

  /** Where ports[i] begins in the joined string: after each earlier port and its ", ". */
  function JoinOffset(ports: seq<string>, i: nat): nat
    requires i < |ports|
  {
    if i == 0 then 0 else |ports[0]| + 2 + JoinOffset(ports[1..], i - 1)
  }

  /** The joined string is as long as the ports plus one ", " between each two. */
  lemma {:induction false} JoinLength(ports: seq<string>)
    requires ports != []
    ensures |Join(ports)| == JoinOffset(ports, |ports| - 1) + |ports[|ports| - 1]|
  {
    if |ports| > 1 {
      JoinLength(ports[1..]);
    }
  }

  /** ports[i] appears in the joined string at its offset. */
  lemma {:induction false} JoinPortAt(ports: seq<string>, i: nat)
    requires i < |ports|
    ensures JoinOffset(ports, i) + |ports[i]| <= |Join(ports)|
    ensures Join(ports)[JoinOffset(ports, i)..JoinOffset(ports, i) + |ports[i]|] == ports[i]
  {
    if |ports| > 1 {
      var j, rest, h := Join(ports), ports[1..], |ports[0]| + 2;
      assert j == ports[0] + ", " + Join(rest);
      if i > 0 {
        JoinPortAt(rest, i - 1);
        var o := JoinOffset(rest, i - 1);
        assert j[h..] == Join(rest);
        assert j[h + o..h + o + |ports[i]|] == j[h..][o..o + |ports[i]|];
      }
    }
  }

  /** A ", " separates ports[i] from ports[i + 1]. */
  lemma {:induction false} JoinSeparatorAt(ports: seq<string>, i: nat)
    requires i + 1 < |ports|
    ensures JoinOffset(ports, i) + |ports[i]| + 2 == JoinOffset(ports, i + 1) <= |Join(ports)|
    ensures Join(ports)[JoinOffset(ports, i) + |ports[i]|..JoinOffset(ports, i + 1)] == ", "
  {
    var j, rest, h := Join(ports), ports[1..], |ports[0]| + 2;
    assert j == ports[0] + ", " + Join(rest);
    if i > 0 {
      JoinSeparatorAt(rest, i - 1);
      var o := JoinOffset(rest, i - 1) + |rest[i - 1]|;
      assert j[h..] == Join(rest);
      assert j[h + o..h + o + 2] == j[h..][o..o + 2];
    }
  }

  /** The three layout facts for every index at once. */
  lemma JoinLayout(ports: seq<string>)
    requires ports != []
    ensures |Join(ports)| == JoinOffset(ports, |ports| - 1) + |ports[|ports| - 1]|
    ensures forall i :: 0 <= i < |ports| ==>
      JoinOffset(ports, i) + |ports[i]| <= |Join(ports)|
      && Join(ports)[JoinOffset(ports, i)..JoinOffset(ports, i) + |ports[i]|] == ports[i]
    ensures forall i :: 0 < i < |ports| ==>
      2 <= JoinOffset(ports, i) <= |Join(ports)| && Join(ports)[JoinOffset(ports, i) - 2..JoinOffset(ports, i)] == ", "
  {
    forall i | 0 <= i < |ports|
      ensures JoinOffset(ports, i) + |ports[i]| <= |Join(ports)|
      ensures Join(ports)[JoinOffset(ports, i)..JoinOffset(ports, i) + |ports[i]|] == ports[i]
    {
      JoinPortAt(ports, i);
    }
    forall i | 0 < i < |ports|
      ensures 2 <= JoinOffset(ports, i) <= |Join(ports)|
      ensures Join(ports)[JoinOffset(ports, i) - 2..JoinOffset(ports, i)] == ", "
    {
      JoinSeparatorAt(ports, i - 1);
    }
    JoinLength(ports);
  }
}
