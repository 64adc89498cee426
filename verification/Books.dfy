/** Sums over accounts, and what the journal of transfers says about each escrow and each token account. */
module Books {
  import opened Integers
  import opened State

  ghost function Total<K>(m: map<K, int>): int
    decreases |m|
  {
    if m == map[] then 0
    else
      var k :| k in m;
      assert |m - {k}| < |m| by { RemoveShrinks(m, k); }
      m[k] + Total(m - {k})
  }

  lemma RemoveShrinks<K, V>(m: map<K, V>, k: K)
    requires k in m
    ensures |m - {k}| == |m| - 1
  {
    assert (m - {k}).Keys == m.Keys - {k};
    assert |(m - {k}).Keys| == |m - {k}|;
  }

  /** Any key may be taken out first. */
  lemma {:induction false} TotalRemove<K>(m: map<K, int>, k: K)
    requires k in m
    ensures Total(m) == m[k] + Total(m - {k})
    decreases |m|
  {
    var j :| j in m && Total(m) == m[j] + Total(m - {j});
    if j != k {
      RemoveShrinks(m, j);
      RemoveShrinks(m, k);
      TotalRemove(m - {j}, k);
      assert (m - {j}) - {k} == (m - {k}) - {j};
      TotalRemove(m - {k}, j);
    }
  }

  lemma TotalUpdate<K>(m: map<K, int>, k: K, v: int)
    ensures Total(m[k := v]) == Total(m - {k}) + v
    ensures Total(m - {k}) == if k in m then Total(m) - m[k] else Total(m)
  {
    TotalRemove(m[k := v], k);
    assert m[k := v] - {k} == m - {k};
    if k in m {
      TotalRemove(m, k);
    } else {
      assert m - {k} == m;
    }
  }

  lemma {:induction false} TotalBounds<K>(m: map<K, int>, k: K)
    requires forall j :: j in m ==> m[j] >= 0
    ensures Total(m) >= 0
    ensures k in m ==> m[k] <= Total(m)
    decreases |m|
  {
    if k in m {
      TotalRemove(m, k);
      RemoveShrinks(m, k);
      TotalBounds(m - {k}, k);
    } else if m != map[] {
      var j :| j in m;
      TotalRemove(m, j);
      RemoveShrinks(m, j);
      TotalBounds(m - {j}, j);
    }
  }

  function Amounts(accounts: map<Key, TokenAccount>): map<Key, int> {
    map a | a in accounts :: accounts[a].amount
  }

  function Escrows(vaults: map<SubKey, U64>): map<SubKey, int> {
    map k | k in vaults :: vaults[k]
  }

  /** All tokens held by token accounts and by escrow vaults. */
  ghost function Supply(b: Bank): int {
    Total(Amounts(b.accounts)) + Total(Escrows(b.vaults))
  }

  /**
   * What the journal says of one escrow since its last prefund: total deposited, paid to the merchant by
   * `charge`, by `settle_usage` and by the final claim, refunded, the number of merchant payments before cancel, and
   * what outsiders sent to the vault.
   */
  datatype Book = Book(deposits: nat, charged: nat, settled: nat, claimed: nat, refunded: nat, payments: nat, donated: nat) {
    function Receipts(): nat {
      charged + settled + claimed
    }
  }

  function Entered(b: Book, m: Movement, k: SubKey): Book {
    if !m.Escrow? || m.sub != k then b
    else match m.purpose
      case Prefund => Book(m.amount, 0, 0, 0, 0, 0, 0)
      case Donation => b.(donated := b.donated + m.amount)
      case TopUp => b.(deposits := b.deposits + m.amount)
      case Charge => b.(charged := b.charged + m.amount, payments := b.payments + 1)
      case Settle(_) => b.(settled := b.settled + m.amount, payments := b.payments + 1)
      case Claim => b.(claimed := b.claimed + m.amount)
      case Refund => b.(refunded := b.refunded + m.amount)
  }

  function BookOf(journal: Journal, k: SubKey): Book {
    match journal
    case Blank => Book(0, 0, 0, 0, 0, 0, 0)
    case Logged(earlier, last) => Entered(BookOf(earlier, k), last, k)
  }

  /** What one transfer adds to token account `a`. */
  function Credit(m: Movement, a: Key): int {
    match m
    case Escrow(purpose, _, account, _, amount) =>
      if account != a then 0 else (if purpose.Incoming() then 0 - amount as int else amount as int)
    case Direct(from, to, amount) =>
      (if to == a then amount else 0) - (if from == a then amount else 0)
  }

  /** The balance the journal gives token account `a`, starting from `initial`. */
  function Balance(initial: int, journal: Journal, a: Key): int {
    match journal
    case Blank => initial
    case Logged(earlier, last) => Balance(initial, earlier, a) + Credit(last, a)
  }
}
