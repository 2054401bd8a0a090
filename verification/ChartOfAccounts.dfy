/** Rewriting an imported SAF-T file through a reviewed account mapping. */
module ChartOfAccounts {
  import opened Wrappers
  import opened Calendar
  import opened Decimal
  import opened Sums

  datatype ImportAccount = ImportAccount(accountId: string, name: string, openingOre: int)

  datatype ImportParty = ImportParty(sourceId: string, name: string, orgnumber: Option<string>)

  datatype ImportLine = ImportLine(
    accountId: string,
    amountOre: int,
    description: Option<string>,
    customerId: Option<string>,
    supplierId: Option<string>,
    taxCode: Option<string>)

  datatype ImportTransaction = ImportTransaction(sourceId: string, date: Date, description: string,
                                                 lines: seq<ImportLine>)

  datatype MappingError = NotFourDigits(from: string, to: string)

  type Mapping = map<string, string>

  predicate IsFourDigit(id: string) {
    |id| == 4 && AllDigits(id)
  }

  function Target(mapping: Mapping, id: string): string {
    if id in mapping then mapping[id] else id
  }

  // ---------- What the mapped file holds ----------

  predicate HasAccount(accounts: seq<ImportAccount>, id: string) {
    exists k | 0 <= k < |accounts| :: accounts[k].accountId == id
  }

  /** Adding one account to a merged list: onto the entry with its number, or as a
      new last entry. */
  function MergeOne(merged: seq<ImportAccount>, account: ImportAccount): seq<ImportAccount> {
    if HasAccount(merged, account.accountId) then
      seq(|merged|, k requires 0 <= k < |merged| =>
        if merged[k].accountId == account.accountId then
          merged[k].(openingOre := merged[k].openingOre + account.openingOre)
        else merged[k])
    else merged + [account]
  }

  function Renamed(mapping: Mapping, account: ImportAccount): ImportAccount {
    account.(accountId := Target(mapping, account.accountId))
  }

  function Merged(mapping: Mapping, accounts: seq<ImportAccount>): seq<ImportAccount> {
    if accounts == [] then []
    else MergeOne(Merged(mapping, accounts[..|accounts| - 1]), Renamed(mapping, accounts[|accounts| - 1]))
  }

  function RemappedLines(mapping: Mapping, lines: seq<ImportLine>): (mapped: seq<ImportLine>)
    ensures |mapped| == |lines|
    ensures forall i | 0 <= i < |lines| && lines[i].accountId !in mapping :: mapped[i] == lines[i]
    ensures forall i | 0 <= i < |lines| && lines[i].accountId in mapping ::
      mapped[i] == lines[i].(accountId := mapping[lines[i].accountId])
  {
    seq(|lines|, i requires 0 <= i < |lines| => lines[i].(accountId := Target(mapping, lines[i].accountId)))
  }

  function Remapped(mapping: Mapping, transactions: seq<ImportTransaction>): (mapped: seq<ImportTransaction>)
    ensures |mapped| == |transactions|
    ensures forall i | 0 <= i < |transactions| ::
      mapped[i] == transactions[i].(lines := RemappedLines(mapping, transactions[i].lines))
  {
    seq(|transactions|, i requires 0 <= i < |transactions| =>
      transactions[i].(lines := RemappedLines(mapping, transactions[i].lines)))
  }

  ghost predicate IsValidMapping(mapping: Mapping) {
    forall from | from in mapping :: IsFourDigit(mapping[from])
  }

  class SaftFile {
    var selectionStart: Option<Date>
    var accounts: seq<ImportAccount>
    var customers: seq<ImportParty>
    var suppliers: seq<ImportParty>
    var transactions: seq<ImportTransaction>

    constructor (selectionStart: Option<Date>, accounts: seq<ImportAccount>, customers: seq<ImportParty>,
                 suppliers: seq<ImportParty>, transactions: seq<ImportTransaction>)
      ensures this.selectionStart == selectionStart && this.accounts == accounts
      ensures this.customers == customers && this.suppliers == suppliers && this.transactions == transactions
    {
      this.selectionStart, this.accounts := selectionStart, accounts;
      this.customers, this.suppliers, this.transactions := customers, suppliers, transactions;
    }

    /** An invalid mapping is refused before anything is touched; a valid one rewrites
        accounts and lines and nothing else. */
    method ApplyMapping(mapping: Mapping) returns (r: Result<(), MappingError>)
      modifies this`accounts, this`transactions
      ensures r.Ok? <==> IsValidMapping(mapping)
      ensures r.Ok? <==> forall from | from in mapping ::
        |mapping[from]| == 4 && forall i | 0 <= i < 4 :: '0' <= mapping[from][i] <= '9'
      ensures r.Err? ==> r.error.from in mapping && mapping[r.error.from] == r.error.to && !IsFourDigit(r.error.to)
      ensures r.Err? ==> accounts == old(accounts) && transactions == old(transactions)
      ensures r.Ok? ==> accounts == Merged(mapping, old(accounts))
      ensures r.Ok? ==> transactions == Remapped(mapping, old(transactions))
    {
      var unchecked := mapping.Keys;
      while unchecked != {}
        invariant unchecked <= mapping.Keys
        invariant forall from | from in mapping.Keys - unchecked :: IsFourDigit(mapping[from])
      {
        var from :| from in unchecked;
        if !IsFourDigit(mapping[from]) {
          return Err(NotFourDigits(from, mapping[from]));
        }
        unchecked := unchecked - {from};
      }
      var drained := accounts;
      accounts := [];
      var merged := MergeAll(mapping, drained);
      accounts := merged;
      for t := 0 to |transactions|
        invariant |transactions| == |old(transactions)| && accounts == merged
        invariant forall i | 0 <= i < t ::
          transactions[i] == old(transactions)[i].(lines := RemappedLines(mapping, old(transactions)[i].lines))
        invariant forall i | t <= i < |transactions| :: transactions[i] == old(transactions)[i]
      {
        var lines := MapLines(mapping, transactions[t].lines);
        transactions := transactions[t := transactions[t].(lines := lines)];
      }
      assert transactions == Remapped(mapping, old(transactions));
      r := Ok(());
    }
  }

  /** The index over a merged list: every number at its place. */
  ghost predicate IsIndex(index: map<string, nat>, merged: seq<ImportAccount>) {
    && (forall id | id in index :: index[id] < |merged| && merged[index[id]].accountId == id)
    && (forall k | 0 <= k < |merged| :: merged[k].accountId in index && index[merged[k].accountId] == k)
  }

  method MapLines(mapping: Mapping, lines: seq<ImportLine>) returns (mapped: seq<ImportLine>)
    ensures mapped == RemappedLines(mapping, lines)
  {
    mapped := lines;
    for i := 0 to |lines|
      invariant |mapped| == |lines|
      invariant forall j | 0 <= j < i :: mapped[j] == RemappedLines(mapping, lines)[j]
      invariant forall j | i <= j < |lines| :: mapped[j] == lines[j]
    {
      mapped := mapped[i := mapped[i].(accountId := Target(mapping, mapped[i].accountId))];
    }
  }

  lemma MergeOneByIndex(index: map<string, nat>, merged: seq<ImportAccount>, account: ImportAccount)
    requires IsIndex(index, merged)
    ensures account.accountId in index ==>
      var k := index[account.accountId];
      MergeOne(merged, account) == merged[k := merged[k].(openingOre := merged[k].openingOre + account.openingOre)]
    ensures account.accountId !in index ==>
      && MergeOne(merged, account) == merged + [account]
      && IsIndex(index[account.accountId := |merged|], merged + [account])
  {
  }

  method MergeAll(mapping: Mapping, accounts: seq<ImportAccount>) returns (merged: seq<ImportAccount>)
    ensures merged == Merged(mapping, accounts)
  {
    merged := [];
    var index: map<string, nat> := map[];
    for i := 0 to |accounts|
      invariant merged == Merged(mapping, accounts[..i])
      invariant IsIndex(index, merged)
    {
      var account := accounts[i];
      var id := Target(mapping, account.accountId);
      assert accounts[..i + 1][..i] == accounts[..i];
      MergeOneByIndex(index, merged, Renamed(mapping, account));
      hide MergeOne;
      if id in index {
        var k := index[id];
        merged := merged[k := merged[k].(openingOre := merged[k].openingOre + account.openingOre)];
      } else {
        index := index[id := |merged|];
        merged := merged + [ImportAccount(id, account.name, account.openingOre)];
      }
    }
    assert accounts[..|accounts|] == accounts;
  }

  // ---------- The books are conserved ----------

  /** The opening balance a list gives one account number. */
  function OpeningOf(accounts: seq<ImportAccount>, id: string): int {
    SumBy((a: ImportAccount) => if a.accountId == id then a.openingOre else 0, accounts)
  }

  /** The openings of all accounts the mapping sends to `id`. */
  function PreimageOpening(mapping: Mapping, accounts: seq<ImportAccount>, id: string): int {
    SumBy((a: ImportAccount) => if Target(mapping, a.accountId) == id then a.openingOre else 0, accounts)
  }

  function Ids(accounts: seq<ImportAccount>): (ids: seq<string>)
    ensures |ids| == |accounts|
  {
    seq(|accounts|, k requires 0 <= k < |accounts| => accounts[k].accountId)
  }

  function Targets(mapping: Mapping, accounts: seq<ImportAccount>): (ids: seq<string>)
    ensures |ids| == |accounts|
  {
    seq(|accounts|, k requires 0 <= k < |accounts| => Target(mapping, accounts[k].accountId))
  }

  /** A list without its repetitions, each element where it first appears. */
  function FirstAppearances(ids: seq<string>): seq<string> {
    if ids == [] then []
    else
      var front, last := FirstAppearances(ids[..|ids| - 1]), ids[|ids| - 1];
      if last in front then front else front + [last]
  }

  function IndexOf(ids: seq<string>, id: string): (at: nat)
    ensures at <= |ids|
    ensures id in ids <==> at < |ids|
    ensures at < |ids| ==> ids[at] == id && id !in ids[..at]
  {
    if ids == [] || ids[0] == id then 0 else 1 + IndexOf(ids[1..], id)
  }

  lemma {:induction false} IndexOfAppend(front: seq<string>, last: string, id: string)
    ensures IndexOf(front + [last], id) == if id in front then IndexOf(front, id) else if id == last then |front|
      else |front| + 1
  {
    if front == [] {
      assert [] + [last] == [last] && [last][1..] == [];
    } else if front[0] != id {
      assert (front + [last])[1..] == front[1..] + [last];
      IndexOfAppend(front[1..], last, id);
    }
  }

  /** No repetitions, the same members, in the order they first appear. */
  lemma {:induction false} FirstAppearancesMeaning(ids: seq<string>)
    ensures
      var r := FirstAppearances(ids);
      && (forall id :: id in r <==> id in ids)
      && (forall k, l | 0 <= k < l < |r| :: IndexOf(ids, r[k]) < IndexOf(ids, r[l]))
  {
    if ids != [] {
      var front, last := ids[..|ids| - 1], ids[|ids| - 1];
      assert ids == front + [last];
      FirstAppearancesMeaning(front);
      var r := FirstAppearances(ids);
      forall k | 0 <= k < |r| ensures IndexOf(ids, r[k]) == if r[k] in front then IndexOf(front, r[k]) else |front| {
        IndexOfAppend(front, last, r[k]);
      }
      hide IndexOf;
    }
  }

  lemma MergeOneMeaning(merged: seq<ImportAccount>, account: ImportAccount)
    ensures
      var next := MergeOne(merged, account);
      && |next| == |merged| + (if account.accountId in Ids(merged) then 0 else 1)
      && (forall k | 0 <= k < |merged| ::
            next[k].accountId == merged[k].accountId && next[k].name == merged[k].name)
      && (account.accountId !in Ids(merged) ==>
            next[|merged|].accountId == account.accountId && next[|merged|].name == account.name)
  {
    assert HasAccount(merged, account.accountId) <==> account.accountId in Ids(merged) by {
      if HasAccount(merged, account.accountId) {
        var k :| 0 <= k < |merged| && merged[k].accountId == account.accountId;
        assert Ids(merged)[k] == account.accountId;
      }
    }
  }

  /** The merged accounts: every target once, where it first appears. */
  lemma {:induction false} IdsAreFirstAppearances(mapping: Mapping, accounts: seq<ImportAccount>)
    ensures Ids(Merged(mapping, accounts)) == FirstAppearances(Targets(mapping, accounts))
  {
    hide MergeOne, Target;
    if accounts != [] {
      var front, last := accounts[..|accounts| - 1], accounts[|accounts| - 1];
      IdsAreFirstAppearances(mapping, front);
      MergeOneMeaning(Merged(mapping, front), Renamed(mapping, last));
      assert Targets(mapping, accounts)[..|front|] == Targets(mapping, front);
    }
  }

  /** The first account the mapping sends to `id` is called `name`. */
  ghost predicate IsFirstName(mapping: Mapping, accounts: seq<ImportAccount>, id: string, name: string) {
    exists j | 0 <= j < |accounts| :: IsFirstInto(mapping, accounts, j, id) && accounts[j].name == name
  }

  ghost predicate IsFirstInto(mapping: Mapping, accounts: seq<ImportAccount>, j: nat, id: string) {
    && j < |accounts| && Target(mapping, accounts[j].accountId) == id
    && forall i | 0 <= i < j :: Target(mapping, accounts[i].accountId) != id
  }

  lemma FirstNameStays(mapping: Mapping, front: seq<ImportAccount>, last: ImportAccount, id: string, name: string)
    requires IsFirstName(mapping, front, id, name)
    ensures IsFirstName(mapping, front + [last], id, name)
  {
    var j :| 0 <= j < |front| && IsFirstInto(mapping, front, j, id) && front[j].name == name;
    assert IsFirstInto(mapping, front + [last], j, id);
  }

  /** A merged account keeps the first name it was given. */
  lemma {:induction false} FirstNameIsKept(mapping: Mapping, accounts: seq<ImportAccount>, k: nat)
    requires k < |Merged(mapping, accounts)|
    ensures IsFirstName(mapping, accounts, Merged(mapping, accounts)[k].accountId, Merged(mapping, accounts)[k].name)
  {
    hide MergeOne, Target, IsFirstName;
    var front, last := accounts[..|accounts| - 1], accounts[|accounts| - 1];
    var merged := Merged(mapping, front);
    assert accounts == front + [last];
    MergeOneMeaning(merged, Renamed(mapping, last));
    if k < |merged| {
      FirstNameIsKept(mapping, front, k);
      FirstNameStays(mapping, front, last, merged[k].accountId, merged[k].name);
    } else {
      NewNameIsFirst(mapping, front, last);
    }
  }

  lemma NewNameIsFirst(mapping: Mapping, front: seq<ImportAccount>, last: ImportAccount)
    requires Target(mapping, last.accountId) !in Ids(Merged(mapping, front))
    ensures IsFirstName(mapping, front + [last], Target(mapping, last.accountId), last.name)
  {
    hide MergeOne, Target;
    var id, n := Target(mapping, last.accountId), |front|;
    IdsAreFirstAppearances(mapping, front);
    FirstAppearancesMeaning(Targets(mapping, front));
    forall i | 0 <= i < n ensures Target(mapping, front[i].accountId) != id {
      assert Targets(mapping, front)[i] in Targets(mapping, front);
    }
    assert IsFirstInto(mapping, front + [last], n, id) && (front + [last])[n].name == last.name;
  }

  predicate IdsAreUnique(accounts: seq<ImportAccount>) {
    forall i, j | 0 <= i < j < |accounts| :: accounts[i].accountId != accounts[j].accountId
  }

  lemma MergedIdsAreUnique(mapping: Mapping, accounts: seq<ImportAccount>)
    ensures IdsAreUnique(Merged(mapping, accounts))
  {
    hide Merged, FirstAppearances, IndexOf;
    IdsAreFirstAppearances(mapping, accounts);
    var ids := Targets(mapping, accounts);
    FirstAppearancesMeaning(ids);
    var merged, r := Merged(mapping, accounts), FirstAppearances(ids);
    forall i, j | 0 <= i < j < |merged| ensures merged[i].accountId != merged[j].accountId {
      assert Ids(merged)[i] == r[i] && Ids(merged)[j] == r[j];
      assert IndexOf(ids, r[i]) < IndexOf(ids, r[j]);
    }
  }

  // ---------- Openings ----------

  lemma {:induction false} OpeningAfterRaise(merged: seq<ImportAccount>, account: ImportAccount, id: string)
    requires IdsAreUnique(merged)
    ensures OpeningOf(MergeOne(merged, account), id)
         == OpeningOf(merged, id) + if account.accountId == id then account.openingOre else 0
  {
    var f := (a: ImportAccount) => if a.accountId == id then a.openingOre else 0;
    if !HasAccount(merged, account.accountId) {
      SumByOne(f, merged, account);
    } else {
      var k :| 0 <= k < |merged| && merged[k].accountId == account.accountId;
      var raised := merged[k].(openingOre := merged[k].openingOre + account.openingOre);
      assert MergeOne(merged, account) == merged[k := raised];
      SumByUpdate(f, merged, k, raised);
    }
  }

  lemma SumByUpdate(f: ImportAccount -> int, s: seq<ImportAccount>, k: nat, x: ImportAccount)
    requires k < |s|
    ensures SumBy(f, s[k := x]) == SumBy(f, s) - f(s[k]) + f(x)
  {
    SumByRemove(f, s, k);
    SumByRemove(f, s[k := x], k);
    assert s[k := x][..k] + s[k := x][k + 1..] == s[..k] + s[k + 1..];
  }

  /** Each number's opening is the sum over the accounts sent to it; in particular
      nothing is lost when accounts merge. */
  lemma {:induction false} OpeningsAreConserved(mapping: Mapping, accounts: seq<ImportAccount>, id: string)
    ensures OpeningOf(Merged(mapping, accounts), id) == PreimageOpening(mapping, accounts, id)
  {
    hide MergeOne, Target;
    if accounts != [] {
      var front, last := accounts[..|accounts| - 1], accounts[|accounts| - 1];
      OpeningsAreConserved(mapping, front, id);
      MergedIdsAreUnique(mapping, front);
      OpeningAfterRaise(Merged(mapping, front), Renamed(mapping, last), id);
    }
  }

  lemma {:induction false} TotalOpeningIsConserved(mapping: Mapping, accounts: seq<ImportAccount>)
    ensures SumBy((a: ImportAccount) => a.openingOre, Merged(mapping, accounts))
         == SumBy((a: ImportAccount) => a.openingOre, accounts)
  {
    if accounts != [] {
      var front, last := accounts[..|accounts| - 1], accounts[|accounts| - 1];
      TotalOpeningIsConserved(mapping, front);
      MergedIdsAreUnique(mapping, front);
      TotalAfterRaise(Merged(mapping, front), Renamed(mapping, last));
    }
  }

  lemma TotalAfterRaise(merged: seq<ImportAccount>, account: ImportAccount)
    requires IdsAreUnique(merged)
    ensures SumBy((a: ImportAccount) => a.openingOre, MergeOne(merged, account))
         == SumBy((a: ImportAccount) => a.openingOre, merged) + account.openingOre
  {
    var f := (a: ImportAccount) => a.openingOre;
    if !HasAccount(merged, account.accountId) {
      SumByOne(f, merged, account);
    } else {
      var k :| 0 <= k < |merged| && merged[k].accountId == account.accountId;
      var raised := merged[k].(openingOre := merged[k].openingOre + account.openingOre);
      assert MergeOne(merged, account) == merged[k := raised];
      SumByUpdate(f, merged, k, raised);
    }
  }

  /** A merged account's own opening is its number's opening: the two agree because
      the numbers are unique. */
  lemma EntryHoldsItsPreimage(mapping: Mapping, accounts: seq<ImportAccount>, k: nat)
    requires k < |Merged(mapping, accounts)|
    ensures Merged(mapping, accounts)[k].openingOre
         == PreimageOpening(mapping, accounts, Merged(mapping, accounts)[k].accountId)
  {
    hide Merged;
    var merged := Merged(mapping, accounts);
    var id := merged[k].accountId;
    OpeningsAreConserved(mapping, accounts, id);
    MergedIdsAreUnique(mapping, accounts);
    var f := (a: ImportAccount) => if a.accountId == id then a.openingOre else 0;
    var zero := (a: ImportAccount) => 0;
    SumByRemove(f, merged, k);
    var rest := merged[..k] + merged[k + 1..];
    SumByAgree(f, zero, rest);
    SumOfZeros(rest);
  }

  lemma {:induction false} SumOfZeros(s: seq<ImportAccount>)
    ensures SumBy((a: ImportAccount) => 0, s) == 0
  {
    if s != [] {
      SumOfZeros(s[..|s| - 1]);
    }
  }

  // ---------- Movements ----------

  function LineMovement(lines: seq<ImportLine>, id: string): int {
    SumBy((line: ImportLine) => if line.accountId == id then line.amountOre else 0, lines)
  }

  function LinePreimage(mapping: Mapping, lines: seq<ImportLine>, id: string): int {
    SumBy((line: ImportLine) => if Target(mapping, line.accountId) == id then line.amountOre else 0, lines)
  }

  /** What all transactions move on one account. */
  function Movement(transactions: seq<ImportTransaction>, id: string): int {
    SumBy((t: ImportTransaction) => LineMovement(t.lines, id), transactions)
  }

  function PreimageMovement(mapping: Mapping, transactions: seq<ImportTransaction>, id: string): int {
    SumBy((t: ImportTransaction) => LinePreimage(mapping, t.lines, id), transactions)
  }

  function Balance(lines: seq<ImportLine>): int {
    SumBy((line: ImportLine) => line.amountOre, lines)
  }

  lemma {:induction false} LinesMove(mapping: Mapping, lines: seq<ImportLine>, id: string)
    ensures LineMovement(RemappedLines(mapping, lines), id) == LinePreimage(mapping, lines, id)
    ensures Balance(RemappedLines(mapping, lines)) == Balance(lines)
  {
    if lines != [] {
      var n := |lines| - 1;
      LinesMove(mapping, lines[..n], id);
      assert RemappedLines(mapping, lines)[..n] == RemappedLines(mapping, lines[..n]);
    }
  }

  /** Every transaction keeps its lines, their amounts and its balance, and what moves
      on an account is what moved on all the accounts sent to it. */
  lemma {:induction false} MovementsAreConserved(mapping: Mapping, transactions: seq<ImportTransaction>, id: string)
    ensures Movement(Remapped(mapping, transactions), id) == PreimageMovement(mapping, transactions, id)
    ensures forall i | 0 <= i < |transactions| ::
      && |Remapped(mapping, transactions)[i].lines| == |transactions[i].lines|
      && Balance(Remapped(mapping, transactions)[i].lines) == Balance(transactions[i].lines)
  {
    hide Balance, LineMovement, LinePreimage, RemappedLines;
    forall i | 0 <= i < |transactions|
      ensures |RemappedLines(mapping, transactions[i].lines)| == |transactions[i].lines|
      ensures Balance(RemappedLines(mapping, transactions[i].lines)) == Balance(transactions[i].lines)
    {
      LinesMove(mapping, transactions[i].lines, id);
    }
    if transactions != [] {
      var n := |transactions| - 1;
      MovementsAreConserved(mapping, transactions[..n], id);
      LinesMove(mapping, transactions[n].lines, id);
      assert Remapped(mapping, transactions)[..n] == Remapped(mapping, transactions[..n]);
    }
  }
}
