/** Order numbers and the per-letter counters they are drawn from
    (`generate_order_number`, bot.py:64-78). An order number is the
    upper-cased first character of the seller's name followed by that
    character's counter, in decimal: `E1`, `E2`, `Ж1`. */
module OrderNumbers {
  import opened Text
  import opened Wrappers

  /** The `order_counters` table: the last value issued for each key. */
  type Counters = map<char, nat>

  /** The order number for counter value `n` under `key`. */
  function OrderNumber(key: char, n: nat): string {
    [key] + Decimal(n)
  }

  /** Splits an order number back into its key and counter value; `None` for
      a string that is not a key followed by decimal digits. */
  function ParseOrderNumber(s: string): Option<(char, nat)> {
    if |s| < 2 then None
    else
      var digits := s[1..];
      if forall i :: 0 <= i < |digits| ==> IsDigit(digits[i])
      then Some((s[0], DecimalValue(digits)))
      else None
  }

  /** An order number can be read back into the key and value it was made of. */
  lemma OrderNumberRoundTrip(key: char, n: nat)
    ensures ParseOrderNumber(OrderNumber(key, n)) == Some((key, n))
  {
    assert OrderNumber(key, n)[1..] == Decimal(n);
    DecimalRoundTrip(n);
  }

  /** Two order numbers are equal only when key and value both are. */
  lemma OrderNumberInjective(k1: char, n1: nat, k2: char, n2: nat)
    requires OrderNumber(k1, n1) == OrderNumber(k2, n2)
    ensures k1 == k2 && n1 == n2
  {
    OrderNumberRoundTrip(k1, n1);
    OrderNumberRoundTrip(k2, n2);
  }

  /** The counter value last issued for `key`, 0 when there is no row for it. */
  function LastIssued(c: Counters, key: char): nat {
    if key in c then c[key] else 0
  }

  /** One call of the generator for `key`: the counter row is created with 1
      or incremented, no other row changes, and the number carries the new
      value. */
  function Issue(c: Counters, key: char): (r: (Counters, string))
    ensures r.0.Keys == c.Keys + {key}
    ensures r.0[key] == LastIssued(c, key) + 1
    ensures key !in c ==> r.0[key] == 1
    ensures forall k :: k in c && k != key ==> r.0[k] == c[k]
    ensures r.1 == OrderNumber(key, r.0[key])
  {
    var n := if key in c then c[key] + 1 else 1;
    (c[key := n], OrderNumber(key, n))
  }

  /** `number` is one that the counters `c` have already handed out: its
      key has a row and its value is between 1 and that row's counter. */
  ghost predicate Issued(c: Counters, number: string) {
    && ParseOrderNumber(number).Some?
    && var (k, n) := ParseOrderNumber(number).value;
       k in c && 1 <= n <= c[k]
  }

  /** Issuing a number keeps every earlier number issued, issues the new
      one, and the new one differs from every earlier one. */
  lemma IssueFresh(c: Counters, key: char, number: string)
    requires Issued(c, number)
    ensures Issued(Issue(c, key).0, number)
    ensures number != Issue(c, key).1
  {
    var (c', issued) := Issue(c, key);
    OrderNumberRoundTrip(key, c'[key]);
  }

  /** The number just issued is recorded as issued by the new counters. */
  lemma IssueIssues(c: Counters, key: char)
    ensures Issued(Issue(c, key).0, Issue(c, key).1)
  {
    var (c', issued) := Issue(c, key);
    OrderNumberRoundTrip(key, c'[key]);
  }

  /** `count` successive calls of the generator for the same key. */
  function IssueRun(c: Counters, key: char, count: nat): (r: (Counters, seq<string>))
    ensures |r.1| == count
    decreases count
  {
    if count == 0 then (c, [])
    else
      var (c1, number) := Issue(c, key);
      var (c2, numbers) := IssueRun(c1, key, count - 1);
      (c2, [number] + numbers)
  }

  /** Successive calls for one key hand out the values following the last
      one issued, one apart and in order (from 1 when the key has no row),
      and leave every other key's counter alone. */
  lemma {:induction false} IssueRunContiguous(c: Counters, key: char, count: nat)
    ensures forall i :: 0 <= i < count ==>
      IssueRun(c, key, count).1[i] == OrderNumber(key, LastIssued(c, key) + i + 1)
    ensures forall k :: k != key ==>
      (k in IssueRun(c, key, count).0 <==> k in c) &&
      (k in c ==> IssueRun(c, key, count).0[k] == c[k])
    ensures count > 0 ==> LastIssued(IssueRun(c, key, count).0, key) == LastIssued(c, key) + count
    decreases count
  {
    if count > 0 {
      var (c1, number) := Issue(c, key);
      IssueRunContiguous(c1, key, count - 1);
      var numbers := IssueRun(c1, key, count - 1).1;
      assert IssueRun(c, key, count).1 == [number] + numbers;
      assert LastIssued(c1, key) == LastIssued(c, key) + 1;
    }
  }

  /** The numbers handed out by successive calls for one key are pairwise
      distinct, and the values they carry strictly increase. */
  lemma IssueRunDistinct(c: Counters, key: char, count: nat)
    ensures forall i, j :: 0 <= i < j < count ==>
      IssueRun(c, key, count).1[i] != IssueRun(c, key, count).1[j]
    ensures forall i :: 0 <= i < count ==>
      ParseOrderNumber(IssueRun(c, key, count).1[i]) == Some((key, LastIssued(c, key) + i + 1))
  {
    IssueRunContiguous(c, key, count);
    var numbers := IssueRun(c, key, count).1;
    forall i, j | 0 <= i < j < count
      ensures numbers[i] != numbers[j]
    {
      if numbers[i] == numbers[j] {
        OrderNumberInjective(key, LastIssued(c, key) + i + 1, key, LastIssued(c, key) + j + 1);
      }
    }
    forall i | 0 <= i < count
      ensures ParseOrderNumber(numbers[i]) == Some((key, LastIssued(c, key) + i + 1))
    {
      OrderNumberRoundTrip(key, LastIssued(c, key) + i + 1);
    }
  }
}
