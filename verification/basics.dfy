/** Machine words, bytes and the ordered keys of a `std::map`. */
module Basics {
  const WORD := 0x1_0000_0000

  type Byte = n: int | 0 <= n < 256

  /** `std::uint32_t`. */
  type Word = n: int | 0 <= n < WORD

  /** The characters of a `std::string`, as unsigned bytes. */
  type Text = seq<Byte>

  /** A socket descriptor. */
  type Handle = int

  datatype Option<+T> = None | Some(value: T)

  /** Unsigned 32-bit wrap-around. */
  function Wrap(n: int): Word {
    n % WORD
  }

  lemma WholeTurns(n: int, turns: int)
    ensures Wrap(n + turns * WORD) == Wrap(n)
  {
  }

  // ---------------------------------------------------------------- the order of a std::map

  ghost predicate StrictOrder<T(!new)>(less: (T, T) -> bool) {
    && (forall x :: !less(x, x))
    && (forall x, y, z :: less(x, y) && less(y, z) ==> less(x, z))
    && (forall x, y :: x != y ==> less(x, y) || less(y, x))
  }

  lemma {:induction false} LeastExists<T(!new)>(s: set<T>, less: (T, T) -> bool) returns (m: T)
    requires |s| > 0 && StrictOrder(less)
    ensures m in s && forall x :: x in s && x != m ==> less(m, x)
    decreases |s|
  {
    m :| m in s;
    var rest := s - {m};
    assert s == rest + {m};
    if |rest| > 0 {
      var b := LeastExists(rest, less);
      m := if less(m, b) then m else b;
    }
  }

  /** The keys of a `std::map` in the order a range-for visits them. */
  function Ordered<T(!new,==)>(s: set<T>, less: (T, T) -> bool): (ks: seq<T>)
    requires StrictOrder(less)
    ensures forall i, j :: 0 <= i < j < |ks| ==> less(ks[i], ks[j])
    ensures forall k :: k in ks <==> k in s
    ensures |ks| == |s|
    decreases |s|
  {
    if |s| == 0 then []
    else
      assert exists m :: m in s && forall x :: x in s && x != m ==> less(m, x) by {
        var m := LeastExists(s, less);
      }
      var m :| m in s && forall x :: x in s && x != m ==> less(m, x);
      var rest := Ordered(s - {m}, less);
      assert forall i :: 0 <= i < |rest| ==> rest[i] in s - {m};
      [m] + rest
  }

  predicate IntLess(a: int, b: int) {
    a < b
  }

  /** Descriptors, in ascending order. */
  function SortedKeys(s: set<Handle>): (ks: seq<Handle>)
    ensures forall i, j :: 0 <= i < j < |ks| ==> ks[i] < ks[j]
    ensures forall k :: k in ks <==> k in s
    ensures forall i :: 0 <= i < |ks| ==> ks[i] in s
  {
    Ordered(s, IntLess)
  }

  /** `std::string`'s `operator<`: lexicographic. */
  predicate TextLess(a: Text, b: Text) {
    b != [] && (a == [] || a[0] < b[0] || (a[0] == b[0] && TextLess(a[1..], b[1..])))
  }

  lemma TextLessTransitive(a: Text, b: Text, c: Text)
    requires TextLess(a, b) && TextLess(b, c)
    ensures TextLess(a, c)
  {
  }

  lemma TextLessTotal(a: Text, b: Text)
    ensures !TextLess(a, a)
    ensures a != b ==> TextLess(a, b) || TextLess(b, a)
  {
    if a != [] {
      TextLessTotal(a[1..], if b == [] then [] else b[1..]);
      assert a == [a[0]] + a[1..] && (b != [] ==> b == [b[0]] + b[1..]);
    }
  }

  /** Aircraft identifiers, in lexicographic order. */
  function SortedIds(s: set<Text>): (ks: seq<Text>)
    ensures forall i, j :: 0 <= i < j < |ks| ==> TextLess(ks[i], ks[j])
    ensures forall i, j :: 0 <= i < j < |ks| ==> ks[i] != ks[j]
    ensures forall k :: k in ks <==> k in s
  {
    assert StrictOrder(TextLess) by {
      forall a, b, c | TextLess(a, b) && TextLess(b, c) ensures TextLess(a, c) {
        TextLessTransitive(a, b, c);
      }
      forall a, b ensures !TextLess(a, a) && (a != b ==> TextLess(a, b) || TextLess(b, a)) {
        TextLessTotal(a, b);
      }
    }
    Ordered(s, TextLess)
  }
}
