/**
 * The posts table: rows, how an id is written in a URL, and the two queries
 * the caching layers issue against it (by id, and all rows newest first).
 */
module Posts {
  import opened Wrappers

  /** One row of the `posts` table, as both services serialise it. */
  datatype Post = Post(id: nat, title: string, content: string, userId: nat)

  predicate IsDigit(c: char) { '0' <= c <= '9' }

  predicate AllDigits(s: string) { forall i :: 0 <= i < |s| ==> IsDigit(s[i]) }

  function DigitChar(d: nat): (c: char)
    requires d < 10
    ensures IsDigit(c)
  {
    ('0' as int + d) as char
  }

  function DigitValue(c: char): (d: nat)
    requires IsDigit(c)
    ensures d < 10 && DigitChar(d) == c
  {
    c as int - '0' as int
  }

  /** The id as a client writes it in `/cache/posts/:id` or `/api/posts/{id}`. */
  function DecimalString(n: nat): (s: string)
    ensures |s| > 0 && AllDigits(s)
    decreases n
  {
    if n < 10 then [DigitChar(n)] else DecimalString(n / 10) + [DigitChar(n % 10)]
  }

  /** The longest prefix of `s` made of digits. */
  function DigitPrefix(s: string): (p: string)
    ensures p <= s && AllDigits(p)
    ensures |p| < |s| ==> !IsDigit(s[|p|])
  {
    if s == [] || !IsDigit(s[0]) then [] else [s[0]] + DigitPrefix(s[1..])
  }

  /** The number a string of decimal digits denotes (0 for the empty string). */
  function NumeralValue(d: string): nat
    requires AllDigits(d)
  {
    if d == [] then 0 else NumeralValue(d[..|d| - 1]) * 10 + DigitValue(d[|d| - 1])
  }

  /**
   * The integer the store compares with the integer `id` column when the query
   * parameter is the raw path segment `s`: the value of its leading digits, and
   * 0 when it has none (so `"all"` and `""` select id 0, which no row has).
   */
  function CoercedId(s: string): (n: nat)
    ensures forall k :: 0 <= k <= |s| && AllDigits(s[..k]) && (k == |s| || !IsDigit(s[k])) ==>
      n == NumeralValue(s[..k])
  {
    assert forall k :: 0 <= k <= |s| && AllDigits(s[..k]) && (k == |s| || !IsDigit(s[k])) ==>
      DigitPrefix(s) == s[..k] by {
      forall k | 0 <= k <= |s| && AllDigits(s[..k]) && (k == |s| || !IsDigit(s[k])) {
        DigitPrefixLongest(s, k);
      }
    }
    NumeralValue(DigitPrefix(s))
  }

  /** The only prefix of `s` that is a digit run not followed by a digit is `DigitPrefix(s)`. */
  lemma DigitPrefixLongest(s: string, k: nat)
    requires k <= |s| && AllDigits(s[..k]) && (k == |s| || !IsDigit(s[k]))
    ensures DigitPrefix(s) == s[..k]
  {
    var p := DigitPrefix(s);
    var n := |p|;
    assert p == s[..n];
    forall i | 0 <= i < k ensures IsDigit(s[i]) {
      assert s[i] == s[..k][i];
    }
    forall i | 0 <= i < n ensures IsDigit(s[i]) {
      assert s[i] == p[i];
    }
    assert n == k;
  }

  lemma {:induction false} NumeralValueOfDecimal(n: nat)
    ensures NumeralValue(DecimalString(n)) == n
    decreases n
  {
    var s := DecimalString(n);
    if n >= 10 {
      assert s[..|s| - 1] == DecimalString(n / 10);
      NumeralValueOfDecimal(n / 10);
    }
  }

  lemma {:induction false} DigitPrefixOfDigits(s: string)
    requires AllDigits(s)
    ensures DigitPrefix(s) == s
  {
    if s != [] {
      DigitPrefixOfDigits(s[1..]);
    }
  }

  /** Writing an id in a URL and coercing the segment back gives the id again. */
  lemma CoercedIdOfDecimal(n: nat)
    ensures CoercedId(DecimalString(n)) == n
  {
    DigitPrefixOfDigits(DecimalString(n));
    NumeralValueOfDecimal(n);
  }

  /** Distinct ids are written differently, so their per-post keys differ. */
  lemma DecimalStringInjective(a: nat, b: nat)
    ensures DecimalString(a) == DecimalString(b) <==> a == b
  {
    CoercedIdOfDecimal(a);
    CoercedIdOfDecimal(b);
  }

  /** A segment without a leading digit selects id 0, hence no row of the table. */
  lemma CoercedIdWithoutDigits(s: string)
    requires s == [] || !IsDigit(s[0])
    ensures CoercedId(s) == 0
  {
  }

  /** `SELECT * FROM posts WHERE id = ?`, first row (the `rows[0]` the handler reads). */
  function RowWithId(rows: seq<Post>, id: nat): (r: Option<Post>)
    ensures r.Some? ==> r.value in rows && r.value.id == id
    ensures r.None? <==> forall i :: 0 <= i < |rows| ==> rows[i].id != id
  {
    if rows == [] then None
    else if rows[0].id == id then Some(rows[0])
    else RowWithId(rows[1..], id)
  }

  ghost predicate IdsAscending(rows: seq<Post>)
  {
    forall i, j :: 0 <= i < j < |rows| ==> rows[i].id < rows[j].id
  }

  ghost predicate IdsDescending(rows: seq<Post>)
  {
    forall i, j :: 0 <= i < j < |rows| ==> rows[i].id > rows[j].id
  }

  function Reversed(s: seq<Post>): (r: seq<Post>)
    ensures |r| == |s| && forall i :: 0 <= i < |s| ==> r[i] == s[|s| - 1 - i]
  {
    if s == [] then [] else Reversed(s[1..]) + [s[0]]
  }

  lemma {:induction false} ReversedSameRows(s: seq<Post>)
    ensures multiset(Reversed(s)) == multiset(s)
  {
    if s != [] {
      ReversedSameRows(s[1..]);
      assert s == [s[0]] + s[1..];
    }
  }

  /**
   * Rows kept in ascending id order, read backwards, are `ORDER BY id DESC`:
   * the same rows, newest first.
   */
  lemma ReversedIsByIdDesc(s: seq<Post>)
    requires IdsAscending(s)
    ensures IdsDescending(Reversed(s)) && multiset(Reversed(s)) == multiset(s)
  {
    ReversedSameRows(s);
  }

  /** With distinct ids (a primary key), the row found by id is the only one with it. */
  lemma RowWithIdUnique(rows: seq<Post>, id: nat, k: nat)
    requires IdsAscending(rows)
    requires k < |rows| && rows[k].id == id
    ensures RowWithId(rows, id) == Some(rows[k])
  {
    if k > 0 {
      assert rows[0].id < rows[k].id;
      RowWithIdUnique(rows[1..], id, k - 1);
    }
  }
}
