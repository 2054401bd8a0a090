/** Bank reconciliation: a greedy matcher that never guesses between two equally
    close entries. Dates are day numbers. */
module Bank {
  import opened Wrappers
  import opened Ids
  import opened Sorting

  datatype BankTx = BankTx(id: Uuid, bookingDate: int, amountOre: int)

  datatype OpenEntry = OpenEntry(entryId: Uuid, date: int, amountOre: int)

  datatype Proposal = Proposal(bankTxId: Uuid, entryId: Uuid, sameDay: bool)

  function Distance(tx: BankTx, entry: OpenEntry): nat {
    var days := entry.date - tx.bookingDate;
    if days < 0 then -days else days
  }

  predicate IsCandidate(tx: BankTx, entry: OpenEntry, maxDays: int) {
    entry.amountOre == tx.amountOre && Distance(tx, entry) <= maxDays
  }

  // ---------- What a transaction is entitled to ----------

  /** `entry` is the one candidate among the unused entries that is closer in
      date than every other. A second entry equal to it in all fields is another. */
  ghost predicate IsUniqueClosest(tx: BankTx, unused: multiset<OpenEntry>, maxDays: int, entry: OpenEntry) {
    && unused[entry] == 1
    && IsCandidate(tx, entry, maxDays)
    && forall other | other in unused && other != entry && IsCandidate(tx, other, maxDays) ::
         Distance(tx, entry) < Distance(tx, other)
  }

  ghost function Choice(tx: BankTx, unused: multiset<OpenEntry>, maxDays: int): (choice: Option<OpenEntry>)
    ensures choice.Some? ==> IsUniqueClosest(tx, unused, maxDays, choice.value)
    ensures choice == None ==> forall entry :: !IsUniqueClosest(tx, unused, maxDays, entry)
  {
    if exists entry :: IsUniqueClosest(tx, unused, maxDays, entry) then
      var entry :| IsUniqueClosest(tx, unused, maxDays, entry);
      Some(entry)
    else None
  }

  lemma ChoiceIsUnique(tx: BankTx, unused: multiset<OpenEntry>, maxDays: int, entry: OpenEntry)
    requires IsUniqueClosest(tx, unused, maxDays, entry)
    ensures Choice(tx, unused, maxDays) == Some(entry)
  {
    assert forall other | unused[other] == 1 :: other in unused;
  }

  /** Two different unused candidates, or one present twice, are equally close and
      no candidate is closer. */
  ghost predicate Tie(tx: BankTx, unused: multiset<OpenEntry>, maxDays: int) {
    exists a, b ::
      && a in unused && b in unused && (a == b ==> unused[a] >= 2)
      && IsCandidate(tx, a, maxDays) && IsCandidate(tx, b, maxDays)
      && Distance(tx, a) == Distance(tx, b)
      && forall c | c in unused && IsCandidate(tx, c, maxDays) :: Distance(tx, a) <= Distance(tx, c)
  }

  /** A tie is never resolved: a tied transaction takes nothing. */
  lemma TieTakesNothing(tx: BankTx, unused: multiset<OpenEntry>, maxDays: int)
    requires Tie(tx, unused, maxDays)
    ensures Choice(tx, unused, maxDays) == None
  {
    assert forall entry | unused[entry] == 1 :: entry in unused;
  }

  function ProposalOf(tx: BankTx, entry: OpenEntry): Proposal {
    Proposal(tx.id, entry.entryId, Distance(tx, entry) == 0)
  }

  /** The entries left after the first transactions of `order` took theirs. */
  ghost function Remaining(order: seq<BankTx>, entries: multiset<OpenEntry>, maxDays: int): multiset<OpenEntry> {
    if order == [] then entries
    else
      var before := Remaining(order[..|order| - 1], entries, maxDays);
      match Choice(order[|order| - 1], before, maxDays)
      case Some(entry) => before - multiset{entry}
      case None => before
  }

  /** Serve the transactions in order, each from what the earlier ones left. */
  ghost function Matching(order: seq<BankTx>, entries: multiset<OpenEntry>, maxDays: int): seq<(BankTx, OpenEntry)> {
    if order == [] then []
    else
      var front, tx := order[..|order| - 1], order[|order| - 1];
      match Choice(tx, Remaining(front, entries, maxDays), maxDays)
      case Some(entry) => Matching(front, entries, maxDays) + [(tx, entry)]
      case None => Matching(front, entries, maxDays)
  }

  function Proposals(matches: seq<(BankTx, OpenEntry)>): (proposals: seq<Proposal>)
    ensures |proposals| == |matches|
  {
    seq(|matches|, i requires 0 <= i < |matches| => ProposalOf(matches[i].0, matches[i].1))
  }

  lemma ProposalsAppend(matches: seq<(BankTx, OpenEntry)>, tx: BankTx, entry: OpenEntry)
    ensures Proposals(matches + [(tx, entry)]) == Proposals(matches) + [ProposalOf(tx, entry)]
    ensures Transactions(matches + [(tx, entry)]) == Transactions(matches) + [tx]
    ensures Entries(matches + [(tx, entry)]) == Entries(matches) + [entry]
  {
  }

  function Transactions(matches: seq<(BankTx, OpenEntry)>): (txs: seq<BankTx>)
    ensures |txs| == |matches|
  {
    seq(|matches|, i requires 0 <= i < |matches| => matches[i].0)
  }

  function Entries(matches: seq<(BankTx, OpenEntry)>): (entries: seq<OpenEntry>)
    ensures |entries| == |matches|
  {
    seq(|matches|, i requires 0 <= i < |matches| => matches[i].1)
  }

  // ---------- Processing order ----------

  /** The sort key: booking date, then amount, then id. */
  predicate TxLe(a: BankTx, b: BankTx) {
    || a.bookingDate < b.bookingDate
    || (a.bookingDate == b.bookingDate && a.amountOre < b.amountOre)
    || (a.bookingDate == b.bookingDate && a.amountOre == b.amountOre && BytesLe(a.id, b.id))
  }

  function ProcessingOrder(transactions: seq<BankTx>): seq<BankTx> {
    Sort(TxLe, transactions)
  }

  lemma TxOrder()
    ensures TotalPreorder(TxLe)
    ensures forall a, b :: TxLe(a, b) && TxLe(b, a) ==> a == b
  {
    forall a, b ensures TxLe(a, b) || TxLe(b, a) ensures TxLe(a, b) && TxLe(b, a) ==> a == b {
      BytesLeTotal(a.id, b.id);
    }
    forall a, b, c | TxLe(a, b) && TxLe(b, c) ensures TxLe(a, c) {
      if BytesLe(a.id, b.id) && BytesLe(b.id, c.id) {
        BytesLeTransitive(a.id, b.id, c.id);
      }
    }
  }

  // ---------- The algorithm ----------

  /** The entries not yet marked as used. */
  ghost function Unused(entries: seq<OpenEntry>, used: seq<bool>): multiset<OpenEntry>
    requires |used| == |entries|
  {
    if entries == [] then multiset{}
    else
      var n := |entries| - 1;
      Unused(entries[..n], used[..n]) + (if used[n] then multiset{} else multiset{entries[n]})
  }

  ghost predicate HeldUnused(entries: seq<OpenEntry>, used: seq<bool>, e: OpenEntry)
    requires |used| == |entries|
  {
    exists i | 0 <= i < |entries| :: entries[i] == e && !used[i]
  }

  lemma HeldUnusedSplits(entries: seq<OpenEntry>, used: seq<bool>, n: nat, e: OpenEntry)
    requires |used| == |entries| == n + 1
    ensures HeldUnused(entries, used, e)
       <==> HeldUnused(entries[..n], used[..n], e) || (entries[n] == e && !used[n])
  {
    var entries', used' := entries[..n], used[..n];
    if i :| 0 <= i < n && entries'[i] == e && !used'[i] {
      assert entries[i] == e && !used[i];
    }
    if i :| 0 <= i < n && entries[i] == e && !used[i] {
      assert entries'[i] == e && !used'[i];
    }
  }

  lemma {:induction false} UnusedMember(entries: seq<OpenEntry>, used: seq<bool>, e: OpenEntry)
    requires |used| == |entries|
    ensures e in Unused(entries, used) <==> HeldUnused(entries, used, e)
  {
    if entries != [] {
      var n := |entries| - 1;
      UnusedMember(entries[..n], used[..n], e);
      HeldUnusedSplits(entries, used, n, e);
    }
  }

  lemma UnusedMembers(entries: seq<OpenEntry>, used: seq<bool>)
    requires |used| == |entries|
    ensures forall e :: e in Unused(entries, used) <==> HeldUnused(entries, used, e)
  {
    forall e ensures e in Unused(entries, used) <==> HeldUnused(entries, used, e) {
      UnusedMember(entries, used, e);
    }
  }

  lemma {:induction false} UnusedAfterUse(entries: seq<OpenEntry>, used: seq<bool>, index: nat)
    requires |used| == |entries| && index < |entries| && !used[index]
    ensures Unused(entries, used[index := true]) + multiset{entries[index]} == Unused(entries, used)
  {
    var n := |entries| - 1;
    var used' := used[index := true];
    if index < n {
      assert used'[..n] == used[..n][index := true];
      UnusedAfterUse(entries[..n], used[..n], index);
    } else {
      assert used'[..n] == used[..n];
    }
  }

  /** An unused entry has multiplicity one exactly when no other unused index holds its equal. */
  lemma UnusedOnce(entries: seq<OpenEntry>, used: seq<bool>, index: nat)
    requires |used| == |entries| && index < |entries| && !used[index]
    ensures Unused(entries, used)[entries[index]] == 1
       <==> forall j | 0 <= j < |entries| && j != index && !used[j] :: entries[j] != entries[index]
  {
    UnusedAfterUse(entries, used, index);
    var rest := used[index := true];
    UnusedMembers(entries, rest);
    assert Unused(entries, used)[entries[index]] == 1 <==> entries[index] !in Unused(entries, rest);
    if entries[index] in Unused(entries, rest) {
      var j :| 0 <= j < |entries| && entries[j] == entries[index] && !rest[j];
      assert j != index && !used[j];
    } else {
      forall j | 0 <= j < |entries| && j != index && !used[j] ensures entries[j] != entries[index] {
        assert !rest[j];
      }
    }
  }

  /** Index `i` is in the running: unused and a candidate. */
  predicate InRunning(tx: BankTx, entries: seq<OpenEntry>, used: seq<bool>, maxDays: int, i: nat)
    requires |used| == |entries| && i < |entries|
  {
    !used[i] && IsCandidate(tx, entries[i], maxDays)
  }

  /** What the inner loop finds is what the transaction is entitled to. */
  lemma ClosestIsChoice(tx: BankTx, entries: seq<OpenEntry>, used: seq<bool>, maxDays: int, index: nat)
    requires |used| == |entries| && index < |entries| && InRunning(tx, entries, used, maxDays, index)
    requires forall i | 0 <= i < |entries| && InRunning(tx, entries, used, maxDays, i) ::
               Distance(tx, entries[index]) <= Distance(tx, entries[i])
    ensures
      var tied := exists i | 0 <= i < |entries| ::
        i != index && InRunning(tx, entries, used, maxDays, i)
          && Distance(tx, entries[i]) == Distance(tx, entries[index]);
      Choice(tx, Unused(entries, used), maxDays) == if tied then None else Some(entries[index])
  {
    hide Unused, Choice;
    var unused := Unused(entries, used);
    UnusedMembers(entries, used);
    UnusedOnce(entries, used, index);
    assert forall i | 0 <= i < |entries| && !used[i] :: entries[i] in unused;
    assert forall j | 0 <= j < |entries| && !used[j] && entries[j] == entries[index] ::
        InRunning(tx, entries, used, maxDays, j);
    assert forall c | c in unused && IsCandidate(tx, c, maxDays) :: Distance(tx, entries[index]) <= Distance(tx, c) by {
      forall c | c in unused && IsCandidate(tx, c, maxDays) ensures Distance(tx, entries[index]) <= Distance(tx, c) {
        var i :| 0 <= i < |entries| && entries[i] == c && !used[i];
        assert InRunning(tx, entries, used, maxDays, i);
      }
    }
    if i :| 0 <= i < |entries| && i != index && InRunning(tx, entries, used, maxDays, i)
            && Distance(tx, entries[i]) == Distance(tx, entries[index]) {
      assert Tie(tx, unused, maxDays);
      TieTakesNothing(tx, unused, maxDays);
    } else {
      forall other | other in unused && other != entries[index] && IsCandidate(tx, other, maxDays)
        ensures Distance(tx, entries[index]) < Distance(tx, other)
      {
        var i :| 0 <= i < |entries| && entries[i] == other && !used[i];
        assert InRunning(tx, entries, used, maxDays, i);
      }
      ChoiceIsUnique(tx, unused, maxDays, entries[index]);
    }
  }

  lemma NoneRunningNoChoice(tx: BankTx, entries: seq<OpenEntry>, used: seq<bool>, maxDays: int)
    requires |used| == |entries|
    requires forall i | 0 <= i < |entries| :: !InRunning(tx, entries, used, maxDays, i)
    ensures Choice(tx, Unused(entries, used), maxDays) == None
  {
    UnusedMembers(entries, used);
    forall entry | IsUniqueClosest(tx, Unused(entries, used), maxDays, entry) ensures false {
      assert entry in Unused(entries, used);
      var i :| 0 <= i < |entries| && entries[i] == entry && !used[i];
      assert InRunning(tx, entries, used, maxDays, i);
    }
  }

  lemma {:induction false} AllUnused(entries: seq<OpenEntry>, used: seq<bool>)
    requires |used| == |entries| && forall i | 0 <= i < |used| :: !used[i]
    ensures Unused(entries, used) == multiset(entries)
  {
    if entries != [] {
      var n := |entries| - 1;
      AllUnused(entries[..n], used[..n]);
      assert entries == entries[..n] + [entries[n]];
    }
  }

  /** The inner loop: the closest candidate, and whether another one ties with it. */
  method Closest(tx: BankTx, entries: seq<OpenEntry>, used: array<bool>, maxDays: int)
    returns (best: Option<(nat, nat)>, ambiguous: bool)
    requires used.Length == |entries|
    ensures best.Some? ==>
      && best.value.1 < |entries| && !used[best.value.1]
      && Distance(tx, entries[best.value.1]) == best.value.0
    ensures Choice(tx, Unused(entries, used[..]), maxDays)
         == if best.Some? && !ambiguous then Some(entries[best.value.1]) else None
  {
    best, ambiguous := None, false;
    for index := 0 to |entries|
      invariant best == None ==> !ambiguous && forall i | 0 <= i < index ::
        !InRunning(tx, entries, used[..], maxDays, i)
      invariant best.Some? ==>
        var (distance, chosen) := best.value;
        && chosen < index && InRunning(tx, entries, used[..], maxDays, chosen)
          && Distance(tx, entries[chosen]) == distance
        && (forall i | 0 <= i < index && InRunning(tx, entries, used[..], maxDays, i) ::
              distance <= Distance(tx, entries[i]))
        && (ambiguous <==> exists i | 0 <= i < index ::
              i != chosen && InRunning(tx, entries, used[..], maxDays, i) && Distance(tx, entries[i]) == distance)
    {
      if used[index] || entries[index].amountOre != tx.amountOre {
        continue;
      }
      var distance := Distance(tx, entries[index]);
      if distance > maxDays {
        continue;
      }
      assert InRunning(tx, entries, used[..], maxDays, index);
      if best.Some? && distance > best.value.0 {
      } else if best.Some? && distance == best.value.0 {
        ambiguous := true;
      } else {
        best := Some((distance, index));
        ambiguous := false;
      }
    }
    if best == None {
      NoneRunningNoChoice(tx, entries, used[..], maxDays);
    } else {
      ClosestIsChoice(tx, entries, used[..], maxDays, best.value.1);
    }
  }

  lemma NoTurns(entries: multiset<OpenEntry>, maxDays: int)
    ensures Remaining([], entries, maxDays) == entries
    ensures Proposals(Matching([], entries, maxDays)) == []
  {
  }

  /** What the state after one more turn is. */
  lemma OneTurn(order: seq<BankTx>, t: nat, entries: multiset<OpenEntry>, maxDays: int)
    requires t < |order|
    ensures
      var before := Remaining(order[..t], entries, maxDays);
      match Choice(order[t], before, maxDays)
      case Some(entry) =>
        && Remaining(order[..t + 1], entries, maxDays) == before - multiset{entry}
        && Matching(order[..t + 1], entries, maxDays) == Matching(order[..t], entries, maxDays) + [(order[t], entry)]
      case None =>
        && Remaining(order[..t + 1], entries, maxDays) == before
        && Matching(order[..t + 1], entries, maxDays) == Matching(order[..t], entries, maxDays)
  {
    assert order[..t + 1][..t] == order[..t];
  }

  method ProposeMatches(transactions: seq<BankTx>, entries: seq<OpenEntry>, maxDays: int)
    returns (proposals: seq<Proposal>)
    ensures proposals == Proposals(Matching(ProcessingOrder(transactions), multiset(entries), maxDays))
  {
    hide Matching, Remaining, Unused, Choice, Proposals;
    var usedEntries := new bool[|entries|](_ => false);
    proposals := [];
    NoTurns(multiset(entries), maxDays);
    AllUnused(entries, usedEntries[..]);
    var order := ProcessingOrder(transactions);
    for t := 0 to |order|
      invariant fresh(usedEntries) && usedEntries.Length == |entries|
      invariant Unused(entries, usedEntries[..]) == Remaining(order[..t], multiset(entries), maxDays)
      invariant proposals == Proposals(Matching(order[..t], multiset(entries), maxDays))
    {
      var tx := order[t];
      OneTurn(order, t, multiset(entries), maxDays);
      ghost var used := usedEntries[..];
      var best, ambiguous := Closest(tx, entries, usedEntries, maxDays);
      if best.Some? && !ambiguous {
        var (distance, index) := best.value;
        UnusedAfterUse(entries, used, index);
        usedEntries[index] := true;
        assert usedEntries[..] == used[index := true];
        ProposalsAppend(Matching(order[..t], multiset(entries), maxDays), tx, entries[index]);
        proposals := proposals + [Proposal(tx.id, entries[index].entryId, distance == 0)];
      }
    }
    assert order[..|order|] == order;
  }

  // ---------- What the matcher promises ----------

  /** Neither the order of the transactions nor the order of the entries matters. */
  lemma MatchingIgnoresInputOrder(transactions: seq<BankTx>, transactions': seq<BankTx>,
                                  entries: seq<OpenEntry>, entries': seq<OpenEntry>, maxDays: int)
    requires multiset(transactions) == multiset(transactions') && multiset(entries) == multiset(entries')
    ensures Matching(ProcessingOrder(transactions), multiset(entries), maxDays)
         == Matching(ProcessingOrder(transactions'), multiset(entries'), maxDays)
  {
    TxOrder();
    SortOfPermutation(TxLe, transactions, transactions');
  }

  /** Every match pairs equal amounts inside the window. */
  lemma {:induction false} MatchesAgree(order: seq<BankTx>, entries: multiset<OpenEntry>, maxDays: int)
    ensures forall pair | pair in Matching(order, entries, maxDays) ::
      pair.0.amountOre == pair.1.amountOre && -maxDays <= pair.1.date - pair.0.bookingDate <= maxDays
  {
    if order != [] {
      MatchesAgree(order[..|order| - 1], entries, maxDays);
    }
  }

  /** A proposal names the two it pairs, and says `sameDay` if and only if their dates are
      the same. */
  lemma ProposalsNameTheirPair(matches: seq<(BankTx, OpenEntry)>, i: nat)
    requires i < |matches|
    ensures |Proposals(matches)| == |matches|
    ensures
      var p, tx, entry := Proposals(matches)[i], matches[i].0, matches[i].1;
      p.bankTxId == tx.id && p.entryId == entry.entryId && (p.sameDay <==> entry.date == tx.bookingDate)
  {
  }

  /** The turns are taken by booking date, then amount, then id byte by byte. */
  lemma TurnsAreTaken(transactions: seq<BankTx>, i: nat, j: nat)
    requires i < j < |transactions|
    ensures multiset(ProcessingOrder(transactions)) == multiset(transactions)
      && |ProcessingOrder(transactions)| == |transactions|
    ensures
      var a, b := ProcessingOrder(transactions)[i], ProcessingOrder(transactions)[j];
      || a.bookingDate < b.bookingDate
      || (a.bookingDate == b.bookingDate && a.amountOre < b.amountOre)
      || (a.bookingDate == b.bookingDate && a.amountOre == b.amountOre
          && (a.id == b.id || exists n | 0 <= n < 16 :: a.id[..n] == b.id[..n] && a.id[n] < b.id[n]))
  {
    TxOrder();
    SortIsSorted(TxLe, transactions);
    assert |multiset(ProcessingOrder(transactions))| == |multiset(transactions)|;
    BytesLeIsLexicographic(ProcessingOrder(transactions)[i].id, ProcessingOrder(transactions)[j].id);
    hide BytesLe;
    assert SortedBy(TxLe, ProcessingOrder(transactions));
  }

  /** An unused entry of the transaction's amount, at most `maxDays` days from it. */
  ghost predicate FitsOnFields(tx: BankTx, entry: OpenEntry, unused: multiset<OpenEntry>, maxDays: int) {
    entry in unused && entry.amountOre == tx.amountOre && -maxDays <= entry.date - tx.bookingDate <= maxDays
  }

  function Days(tx: BankTx, entry: OpenEntry): int {
    if entry.date >= tx.bookingDate then entry.date - tx.bookingDate else tx.bookingDate - entry.date
  }

  lemma UniqueOnFields(tx: BankTx, unused: multiset<OpenEntry>, maxDays: int, e: OpenEntry)
    ensures IsUniqueClosest(tx, unused, maxDays, e) <==>
      FitsOnFields(tx, e, unused, maxDays) && unused[e] == 1
      && forall o | o != e && FitsOnFields(tx, o, unused, maxDays) :: Days(tx, e) < Days(tx, o)
  {
    assert forall o :: FitsOnFields(tx, o, unused, maxDays) <==> o in unused && IsCandidate(tx, o, maxDays);
    assert forall o :: Days(tx, o) == Distance(tx, o);
    if FitsOnFields(tx, e, unused, maxDays) && unused[e] == 1
       && forall o | o != e && FitsOnFields(tx, o, unused, maxDays) :: Days(tx, e) < Days(tx, o) {
      forall other | other in unused && other != e && IsCandidate(tx, other, maxDays)
        ensures Distance(tx, e) < Distance(tx, other)
      {
        assert FitsOnFields(tx, other, unused, maxDays);
      }
    }
  }

  /** A transaction's choice among the unused entries, on the fields: an entry of its amount
      and within the window, there once, and nearer than every other such entry. */
  lemma ChoiceOnFields(tx: BankTx, unused: multiset<OpenEntry>, maxDays: int, e: OpenEntry)
    ensures Choice(tx, unused, maxDays) == Some(e) <==>
      FitsOnFields(tx, e, unused, maxDays) && unused[e] == 1
      && forall o | o != e && FitsOnFields(tx, o, unused, maxDays) :: Days(tx, e) < Days(tx, o)
  {
    UniqueOnFields(tx, unused, maxDays, e);
    if IsUniqueClosest(tx, unused, maxDays, e) {
      ChoiceIsUnique(tx, unused, maxDays, e);
    }
    hide IsUniqueClosest, FitsOnFields, Days;
  }

  /** Two entries that fit, or one there twice, equally near and none nearer. */
  ghost predicate TieOnFields(tx: BankTx, unused: multiset<OpenEntry>, maxDays: int) {
    exists a, b ::
      && FitsOnFields(tx, a, unused, maxDays) && FitsOnFields(tx, b, unused, maxDays)
      && (a == b ==> unused[a] >= 2) && Days(tx, a) == Days(tx, b)
      && forall c | FitsOnFields(tx, c, unused, maxDays) :: Days(tx, a) <= Days(tx, c)
  }

  /** A transaction without a choice had no entry that fits, or met a tie; a tie is never
      resolved. */
  lemma NoChoiceOnFields(tx: BankTx, unused: multiset<OpenEntry>, maxDays: int)
    ensures Choice(tx, unused, maxDays) == None <==>
      (forall e :: !FitsOnFields(tx, e, unused, maxDays)) || TieOnFields(tx, unused, maxDays)
  {
    TiesAreTies(tx, unused, maxDays);
    if e :| FitsOnFields(tx, e, unused, maxDays) {
      if Tie(tx, unused, maxDays) {
        TieTakesNothing(tx, unused, maxDays);
      } else if Choice(tx, unused, maxDays) == None {
        NoChoiceMeansTie(tx, unused, maxDays, e);
      }
    } else if Choice(tx, unused, maxDays).Some? {
      ChoiceOnFields(tx, unused, maxDays, Choice(tx, unused, maxDays).value);
    }
    hide Choice, Tie, TieOnFields;
  }

  lemma TiesAreTies(tx: BankTx, unused: multiset<OpenEntry>, maxDays: int)
    ensures TieOnFields(tx, unused, maxDays) <==> Tie(tx, unused, maxDays)
  {
    assert forall o :: FitsOnFields(tx, o, unused, maxDays) <==> o in unused && IsCandidate(tx, o, maxDays);
    assert forall o :: Days(tx, o) == Distance(tx, o);
    if Tie(tx, unused, maxDays) {
      var a, b :|
        && a in unused && b in unused && (a == b ==> unused[a] >= 2)
        && IsCandidate(tx, a, maxDays) && IsCandidate(tx, b, maxDays)
        && Distance(tx, a) == Distance(tx, b)
        && forall c | c in unused && IsCandidate(tx, c, maxDays) :: Distance(tx, a) <= Distance(tx, c);
      assert FitsOnFields(tx, a, unused, maxDays) && FitsOnFields(tx, b, unused, maxDays);
    }
    if TieOnFields(tx, unused, maxDays) {
      var a, b :|
        && FitsOnFields(tx, a, unused, maxDays) && FitsOnFields(tx, b, unused, maxDays)
        && (a == b ==> unused[a] >= 2) && Days(tx, a) == Days(tx, b)
        && forall c | FitsOnFields(tx, c, unused, maxDays) :: Days(tx, a) <= Days(tx, c);
      forall c | c in unused && IsCandidate(tx, c, maxDays) ensures Distance(tx, a) <= Distance(tx, c) {
        assert FitsOnFields(tx, c, unused, maxDays);
      }
    }
  }

  /** No entry is used twice: the matched entries and the remaining ones are
      together exactly the entries. */
  lemma {:induction false} EntriesAreConserved(order: seq<BankTx>, entries: multiset<OpenEntry>, maxDays: int)
    ensures multiset(Entries(Matching(order, entries, maxDays))) + Remaining(order, entries, maxDays) == entries
  {
    hide Choice, Transactions, Entries, Proposals;
    if order == [] {
      assert |Entries(Matching(order, entries, maxDays))| == 0;
    } else {
      var front, tx := order[..|order| - 1], order[|order| - 1];
      EntriesAreConserved(front, entries, maxDays);
      var before := Remaining(front, entries, maxDays);
      match Choice(tx, before, maxDays)
      case Some(entry) =>
        ProposalsAppend(Matching(front, entries, maxDays), tx, entry);
        assert before == before - multiset{entry} + multiset{entry};
      case None =>
    }
  }

  /** No transaction is matched twice. */
  lemma {:induction false} TransactionsAreConserved(order: seq<BankTx>, entries: multiset<OpenEntry>, maxDays: int)
    ensures multiset(Transactions(Matching(order, entries, maxDays))) <= multiset(order)
  {
    hide Choice, Remaining, Transactions, Entries, Proposals;
    if order == [] {
      assert |Transactions(Matching(order, entries, maxDays))| == 0;
    } else {
      var front, tx := order[..|order| - 1], order[|order| - 1];
      TransactionsAreConserved(front, entries, maxDays);
      assert order == front + [tx];
      match Choice(tx, Remaining(front, entries, maxDays), maxDays)
      case Some(entry) => ProposalsAppend(Matching(front, entries, maxDays), tx, entry);
      case None =>
    }
  }

  lemma TwiceInSequence<T>(s: seq<T>, i: nat, j: nat)
    requires i < j < |s| && s[i] == s[j]
    ensures multiset(s)[s[i]] >= 2
  {
    assert s == s[..j] + [s[j]] + s[j + 1..];
    assert s[..j][i] == s[i];
    assert s[i] in multiset(s[..j]);
  }

  lemma {:induction false} AtMostOnce<T>(s: seq<T>, x: T)
    requires forall i, j | 0 <= i < j < |s| :: s[i] != s[j]
    ensures multiset(s)[x] <= 1
  {
    if s != [] {
      var front := s[..|s| - 1];
      AtMostOnce(front, x);
      assert s == front + [s[|s| - 1]];
      if x == s[|s| - 1] {
        assert x !in front;
        assert x !in multiset(front);
      }
    }
  }

  /** With distinct ids on both sides, no bank transaction and no ledger entry
      appears in two proposals. */
  lemma ProposalsAreOneToOne(transactions: seq<BankTx>, entries: seq<OpenEntry>, maxDays: int, i: nat, j: nat)
    requires forall a, b | 0 <= a < b < |transactions| :: transactions[a].id != transactions[b].id
    requires forall a, b | 0 <= a < b < |entries| :: entries[a].entryId != entries[b].entryId
    requires i < j < |Proposals(Matching(ProcessingOrder(transactions), multiset(entries), maxDays))|
    ensures
      var proposals := Proposals(Matching(ProcessingOrder(transactions), multiset(entries), maxDays));
      proposals[i].bankTxId != proposals[j].bankTxId && proposals[i].entryId != proposals[j].entryId
  {
    var order := ProcessingOrder(transactions);
    TxOrder();
    SortIsSorted(TxLe, transactions);
    var matches := Matching(order, multiset(entries), maxDays);
    EntriesAreConserved(order, multiset(entries), maxDays);
    TransactionsAreConserved(order, multiset(entries), maxDays);
    DistinctAfterSelection(Entries(matches), entries, (e: OpenEntry) => e.entryId, i, j);
    DistinctAfterSelection(Transactions(matches), transactions, (tx: BankTx) => tx.id, i, j);
  }

  /** A selection from elements with distinct ids has distinct ids. */
  lemma DistinctAfterSelection<T>(selection: seq<T>, from: seq<T>, id: T -> Uuid, i: nat, j: nat)
    requires multiset(selection) <= multiset(from)
    requires forall a, b | 0 <= a < b < |from| :: id(from[a]) != id(from[b])
    requires i < j < |selection|
    ensures id(selection[i]) != id(selection[j])
  {
    var x, y := selection[i], selection[j];
    assert x in multiset(from) && y in multiset(from);
    assert x in from && y in from;
    AtMostOnce(from, x);
    if x == y {
      TwiceInSequence(selection, i, j);
    }
  }

  /** Every transaction at its turn: matched to the unique closest unused entry if
      there is one; otherwise there was no candidate at all, or the closest
      candidates tie. */
  lemma EveryTurnIsJustified(order: seq<BankTx>, entries: multiset<OpenEntry>, maxDays: int, t: nat)
    requires t < |order|
    ensures
      var unused := Remaining(order[..t], entries, maxDays);
      var tx := order[t];
      match Choice(tx, unused, maxDays)
      case Some(entry) =>
        && IsUniqueClosest(tx, unused, maxDays, entry)
        && (tx, entry) in Matching(order, entries, maxDays)
      case None =>
        || (forall entry | entry in unused :: !IsCandidate(tx, entry, maxDays))
        || Tie(tx, unused, maxDays)
  {
    var unused := Remaining(order[..t], entries, maxDays);
    match Choice(order[t], unused, maxDays)
    case Some(entry) =>
      assert order[..t + 1][..t] == order[..t];
      assert Matching(order[..t + 1], entries, maxDays)[|Matching(order[..t], entries, maxDays)|] == (order[t], entry);
      MatchingGrows(order, entries, maxDays, t + 1);
    case None =>
      if entry :| entry in unused && IsCandidate(order[t], entry, maxDays) {
        NoChoiceMeansTie(order[t], unused, maxDays, entry);
      }
  }

  lemma {:induction false} NoChoiceMeansTie(tx: BankTx, unused: multiset<OpenEntry>, maxDays: int, entry: OpenEntry)
    requires Choice(tx, unused, maxDays) == None
    requires entry in unused && IsCandidate(tx, entry, maxDays)
    ensures Tie(tx, unused, maxDays)
    decreases Distance(tx, entry)
  {
    assert !IsUniqueClosest(tx, unused, maxDays, entry);
    if closer :| closer in unused && IsCandidate(tx, closer, maxDays) && Distance(tx, closer) < Distance(tx, entry) {
      NoChoiceMeansTie(tx, unused, maxDays, closer);
    } else if unused[entry] != 1 {
      assert unused[entry] >= 2;
    } else {
      var other :| other in unused && other != entry && IsCandidate(tx, other, maxDays)
                   && Distance(tx, entry) >= Distance(tx, other);
      assert Distance(tx, entry) == Distance(tx, other);
    }
  }

  lemma {:induction false} MatchingGrows(order: seq<BankTx>, entries: multiset<OpenEntry>, maxDays: int, t: nat)
    requires t <= |order|
    ensures Matching(order[..t], entries, maxDays) <= Matching(order, entries, maxDays)
    decreases |order|
  {
    if t == |order| {
      assert order[..t] == order;
    } else {
      var front := order[..|order| - 1];
      MatchingGrows(front, entries, maxDays, t);
      assert front[..t] == order[..t];
    }
  }
}
