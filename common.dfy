/**
 * Helpers shared by every part of the NEF model: optional values, decimal
 * formatting of counters (Go's strconv.FormatUint / strconv.Itoa), the
 * enumeration order of a Go map range, and the "text after the last slash"
 * extraction that Go code writes with strings.LastIndex.
 */
module Common {

  datatype Option<T> = None | Some(value: T)

  datatype Result<T> = Ok(value: T) | Err(error: string)

  // ---------------------------------------------------------------------------
  // Decimal formatting
  // ---------------------------------------------------------------------------

  function DigitChar(d: nat): (c: char)
    requires d < 10
    ensures '0' <= c <= '9'
  {
    "0123456789"[d]
  }

  predicate IsDigits(s: string)
  {
    forall i :: 0 <= i < |s| ==> '0' <= s[i] <= '9'
  }

  /** The decimal digits of n, most significant first. */
  function Digits(n: nat): string
    decreases n
  {
    if n < 10 then [DigitChar(n)] else Digits(n / 10) + [DigitChar(n % 10)]
  }

  /** The digits are a non-empty string of decimal digits ending in the last digit of n. */
  lemma {:induction false} DigitsShape(n: nat)
    ensures 1 <= |Digits(n)| && IsDigits(Digits(n)) && Digits(n)[|Digits(n)| - 1] == DigitChar(n % 10)
    decreases n
  {
    if 10 <= n {
      DigitsShape(n / 10);
    }
  }

  /** Decimal text of a natural number, as strconv.FormatUint(n, 10) prints it. */
  function NatToString(n: nat): (s: string)
    ensures 1 <= |s|
    ensures IsDigits(s)
    ensures s[|s| - 1] == DigitChar(n % 10)
  {
    DigitsShape(n);
    Digits(n)
  }

  lemma DigitCharInjective(a: nat, b: nat)
    requires a < 10 && b < 10 && DigitChar(a) == DigitChar(b)
    ensures a == b
  {
  }

  /** Distinct counters print as distinct decimal strings. */
  lemma NatToStringInjective(a: nat, b: nat)
    requires NatToString(a) == NatToString(b)
    ensures a == b
  {
    DigitsInjective(a, b);
  }

  lemma {:induction false} DigitsInjective(a: nat, b: nat)
    requires Digits(a) == Digits(b)
    ensures a == b
    decreases a
  {
    var sa, sb := Digits(a), Digits(b);
    DigitsShape(a);
    DigitsShape(b);
    DigitCharInjective(a % 10, b % 10);
    if 10 <= a && 10 <= b {
      assert Digits(a / 10) == sa[..|sa| - 1];
      assert Digits(b / 10) == sb[..|sb| - 1];
      DigitsInjective(a / 10, b / 10);
    } else if a < 10 && 10 <= b {
      DigitsShape(b / 10);
    } else if 10 <= a && b < 10 {
      DigitsShape(a / 10);
    }
  }

  /** strconv.Itoa for a possibly negative int. */
  function IntToString(i: int): (s: string)
    ensures 1 <= |s|
    ensures i >= 0 ==> s == NatToString(i)
    ensures i < 0 ==> s[0] == '-'
  {
    if i < 0 then "-" + NatToString(-i) else NatToString(i)
  }

  /** Both configuration generations default the port to 8000 and print it as "8000". */
  lemma Decimal8000()
    ensures IntToString(8000) == "8000"
  {
    assert DigitChar(0) == '0' && DigitChar(8) == '8';
    assert Digits(80) == Digits(8) + "0" == "80";
    assert Digits(800) == Digits(80) + "0" == "800";
    assert Digits(8000) == Digits(800) + "0" == "8000";
  }

  /**
   * `id` is one of the identifiers 1..counter printed by a decimal counter
   * that has been incremented `counter` times.
   */
  ghost predicate Issued(id: string, counter: nat)
  {
    exists n: nat :: 1 <= n <= counter && NatToString(n) == id
  }

  /**
   * An identifier drawn from an incremented counter was never handed out
   * before: it differs from every identifier issued so far.
   */
  lemma NextIdIsFresh(id: string, counter: nat)
    requires Issued(id, counter)
    ensures id != NatToString(counter + 1)
  {
    var n: nat :| 1 <= n <= counter && NatToString(n) == id;
    if id == NatToString(counter + 1) {
      NatToStringInjective(n, counter + 1);
    }
  }

  lemma IssuedGrows(id: string, counter: nat, later: nat)
    requires Issued(id, counter) && counter <= later
    ensures Issued(id, later)
  {
  }

  lemma NextIdIssued(counter: nat)
    ensures Issued(NatToString(counter + 1), counter + 1)
  {
    assert 1 <= counter + 1 <= counter + 1;
  }

  // ---------------------------------------------------------------------------
  // Go map iteration order
  // ---------------------------------------------------------------------------

  /** `order` lists every key of `keys` exactly once. */
  ghost predicate IsEnumeration<K(!new)>(order: seq<K>, keys: set<K>)
  {
    (forall i, j :: 0 <= i < j < |order| ==> order[i] != order[j]) &&
    (forall k :: k in order <==> k in keys)
  }

  lemma EnumerationLength<K(!new)>(order: seq<K>, keys: set<K>)
    requires IsEnumeration(order, keys)
    ensures |order| == |keys|
    decreases |order|
  {
    if order != [] {
      var last := order[|order| - 1];
      var rest := order[..|order| - 1];
      assert IsEnumeration(rest, keys - {last}) by {
        forall k ensures k in rest <==> k in keys - {last} {
          if k in rest {
            var i :| 0 <= i < |rest| && rest[i] == k;
            assert order[i] != order[|order| - 1];
          }
          if k in keys - {last} {
            var i :| 0 <= i < |order| && order[i] == k;
            assert i < |order| - 1;
            assert rest[i] == k;
          }
        }
      }
      EnumerationLength(rest, keys - {last});
    }
  }

  /** Appending a key not yet listed extends the enumeration to it. */
  lemma EnumerationAppend<K(!new)>(order: seq<K>, keys: set<K>, k: K)
    requires IsEnumeration(order, keys) && k !in keys
    ensures IsEnumeration(order + [k], keys + {k})
  {
    var o := order + [k];
    forall i, j | 0 <= i < j < |o| ensures o[i] != o[j] {
      if j == |order| {
        assert o[i] == order[i] && order[i] in order;
      }
    }
    forall x ensures x in o <==> x in keys + {k} {
      if x in o {
        var i :| 0 <= i < |o| && o[i] == x;
        if i < |order| {
          assert order[i] == x;
        }
      }
      if x in order {
        var i :| 0 <= i < |order| && order[i] == x;
        assert o[i] == x;
      }
    }
  }

  lemma ConcatAssoc<T>(a: seq<T>, b: seq<T>, c: seq<T>)
    ensures a + b + c == a + (b + c)
  {
  }

  /** The elements of a sequence, as a set. */
  function Elems<K>(s: seq<K>): set<K>
  {
    set x | x in s
  }

  /** Keeps the elements of `s` that belong to `keep`, in their order. */
  function Filter<K(==,!new)>(s: seq<K>, keep: set<K>): (r: seq<K>)
    ensures forall k :: k in r <==> k in s && k in keep
    ensures |r| <= |s|
  {
    if s == [] then []
    else if s[0] in keep then [s[0]] + Filter(s[1..], keep)
    else Filter(s[1..], keep)
  }

  /** Filtering one more element at the end appends it when it is kept. */
  lemma {:induction false} FilterSnoc<K(!new)>(s: seq<K>, keep: set<K>, x: K)
    ensures Filter(s + [x], keep) == Filter(s, keep) + (if x in keep then [x] else [])
  {
    if s != [] {
      assert (s + [x])[1..] == s[1..] + [x];
      FilterSnoc(s[1..], keep, x);
    }
  }

  // ---------------------------------------------------------------------------
  // Text after the last '/'
  // ---------------------------------------------------------------------------

  predicate NoSlash(s: string)
  {
    forall i :: 0 <= i < |s| ==> s[i] != '/'
  }

  /** strings.LastIndex(s, "/"): the index of the last slash, or -1 when there is none. */
  function LastSlash(s: string): (r: int)
    ensures -1 <= r < |s|
    ensures r >= 0 ==> s[r] == '/'
    ensures forall j :: r < j < |s| ==> s[j] != '/'
  {
    if |s| == 0 then -1
    else if s[|s| - 1] == '/' then |s| - 1
    else LastSlash(s[..|s| - 1])
  }

  /** The text after the last slash; the whole string when it has none. */
  function LastSegment(s: string): (r: string)
    ensures NoSlash(r)
    ensures NoSlash(s) ==> r == s
  {
    s[LastSlash(s) + 1..]
  }

  /**
   * Appending "/" and a slash-free identifier to any prefix is undone by
   * LastSegment: the identifier is recovered from the resource URI.
   */
  lemma LastSegmentOfAppend(prefix: string, id: string)
    requires NoSlash(id)
    ensures LastSegment(prefix + "/" + id) == id
  {
    var s := prefix + "/" + id;
    var r := LastSlash(s);
    assert s[|prefix|] == '/';
    assert r >= |prefix|;
    assert s[r + 1..] == id;
  }
}
