/** The subledger tie-out: check 4 of the auditor's report, and the rows the
    persistence layer builds for it from the entries. Only what is found is
    modelled, not how it is worded. */
module Audit {
  import opened Wrappers
  import opened Sums

  datatype Party = Party(id: nat, kind: string)

  datatype Account = Account(number: string, flag: Option<string>)

  datatype Entry = Entry(account: string, amountOre: int, party: Option<Party>)

  datatype SubledgerAccount = SubledgerAccount(
    account: string,
    flag: Option<string>,
    generalLedgerOre: int,
    subledgerOre: int,
    withoutPartyCount: int,
    withPartyCount: int,
    wrongKindCount: int,
    wrongKindOre: int)

  datatype Deviation =
    | PartyOutsideSubledger(account: string, postings: int, ore: int)
    | Difference(account: string, ore: int, withoutParty: int)
    | WithoutParty(account: string, postings: int)
    | WrongKind(account: string, postings: int, ore: int)

  datatype Check = Check(ok: bool, flagged: nat, subledgerSum: int, deviations: seq<Deviation>)

  // ---------- The check ----------

  /** What is wrong with one account. */
  function Findings(row: SubledgerAccount): seq<Deviation> {
    if row.flag == None then [PartyOutsideSubledger(row.account, row.withPartyCount, row.subledgerOre)]
    else
      var difference := row.generalLedgerOre - row.subledgerOre;
      (if difference != 0 then [Difference(row.account, difference, row.withoutPartyCount)]
       else if row.withoutPartyCount > 0 then [WithoutParty(row.account, row.withoutPartyCount)]
       else [])
      + (if row.wrongKindCount > 0 then [WrongKind(row.account, row.wrongKindCount, row.wrongKindOre)] else [])
  }

  function AllFindings(rows: seq<SubledgerAccount>): seq<Deviation> {
    if rows == [] then [] else AllFindings(rows[..|rows| - 1]) + Findings(rows[|rows| - 1])
  }

  function FlaggedCount(row: SubledgerAccount): int {
    if row.flag.Some? then 1 else 0
  }

  function FlaggedSubledger(row: SubledgerAccount): int {
    if row.flag.Some? then row.subledgerOre else 0
  }

  lemma OneMoreRow(rows: seq<SubledgerAccount>, i: nat)
    requires i < |rows|
    ensures AllFindings(rows[..i + 1]) == AllFindings(rows[..i]) + Findings(rows[i])
    ensures SumBy(FlaggedCount, rows[..i + 1]) == SumBy(FlaggedCount, rows[..i]) + FlaggedCount(rows[i])
    ensures SumBy(FlaggedSubledger, rows[..i + 1]) == SumBy(FlaggedSubledger, rows[..i]) + FlaggedSubledger(rows[i])
  {
    hide Findings, FlaggedCount, FlaggedSubledger;
    assert rows[..i + 1][..i] == rows[..i];
  }

  method SubledgerCheck(rows: seq<SubledgerAccount>) returns (check: Check)
    ensures check.deviations == AllFindings(rows) && (check.ok <==> AllFindings(rows) == [])
    ensures check.flagged == SumBy((row: SubledgerAccount) => if row.flag.Some? then 1 else 0, rows)
    ensures check.subledgerSum == SumBy((row: SubledgerAccount) => if row.flag.Some? then row.subledgerOre else 0, rows)
  {
    hide AllFindings, SumBy;
    var deviations: seq<Deviation> := [];
    var flagged: nat, subledgerSum := 0, 0;
    NoRows();
    assert rows[..0] == [];
    for i := 0 to |rows|
      invariant deviations == AllFindings(rows[..i])
      invariant flagged == SumBy(FlaggedCount, rows[..i]) && subledgerSum == SumBy(FlaggedSubledger, rows[..i])
    {
      var row := rows[i];
      OneMoreRow(rows, i);
      if row.flag == None {
        deviations := deviations + [PartyOutsideSubledger(row.account, row.withPartyCount, row.subledgerOre)];
        continue;
      }
      flagged := flagged + 1;
      subledgerSum := subledgerSum + row.subledgerOre;
      ghost var before := deviations;
      var difference := row.generalLedgerOre - row.subledgerOre;
      var first := [];
      if difference != 0 {
        first := [Difference(row.account, difference, row.withoutPartyCount)];
      } else if row.withoutPartyCount > 0 {
        first := [WithoutParty(row.account, row.withoutPartyCount)];
      }
      var second := [];
      if row.wrongKindCount > 0 {
        second := [WrongKind(row.account, row.wrongKindCount, row.wrongKindOre)];
      }
      deviations := deviations + first + second;
      Regroup(before, first, second);
    }
    assert rows[..|rows|] == rows;
    SumByAgree(FlaggedCount, (row: SubledgerAccount) => if row.flag.Some? then 1 else 0, rows);
    SumByAgree(FlaggedSubledger, (row: SubledgerAccount) => if row.flag.Some? then row.subledgerOre else 0, rows);
    check := Check(deviations == [], flagged, subledgerSum, deviations);
  }

  lemma NoRows()
    ensures AllFindings([]) == [] && SumBy(FlaggedCount, []) == 0 && SumBy(FlaggedSubledger, []) == 0
  {
  }

  lemma {:induction false} NoFindingsAnywhere(rows: seq<SubledgerAccount>)
    ensures AllFindings(rows) == [] <==> forall row | row in rows :: Findings(row) == []
  {
    hide Findings;
    if rows != [] {
      var front, last := rows[..|rows| - 1], rows[|rows| - 1];
      NoFindingsAnywhere(front);
      assert rows == front + [last];
      assert last in rows && forall row | row in front :: row in rows;
    }
  }

  // ---------- The rows, from the entries ----------

  function IsOn(account: Account): Entry -> bool {
    (e: Entry) => e.account == account.number
  }

  function OnAccount(entries: seq<Entry>, account: Account): seq<Entry> {
    Filter(IsOn(account), entries)
  }

  function Count(p: Entry -> bool, entries: seq<Entry>): int {
    SumBy((e: Entry) => if p(e) then 1 else 0, entries)
  }

  function Total(p: Entry -> bool, entries: seq<Entry>): int {
    SumBy((e: Entry) => if p(e) then e.amountOre else 0, entries)
  }

  predicate HasWrongKind(e: Entry, flag: Option<string>) {
    e.party.Some? && Some(e.party.value.kind) != flag
  }

  /** One row: sums and counts over the account's entries. */
  function RowOf(account: Account, entries: seq<Entry>): SubledgerAccount {
    var own := OnAccount(entries, account);
    SubledgerAccount(
      account.number,
      account.flag,
      Total((e: Entry) => true, own),
      Total((e: Entry) => e.party.Some?, own),
      Count((e: Entry) => e.party.None?, own),
      Count((e: Entry) => e.party.Some?, own),
      Count((e: Entry) => HasWrongKind(e, account.flag), own),
      Total((e: Entry) => HasWrongKind(e, account.flag), own))
  }

  /** Flagged accounts, and accounts that carry a party without being flagged. */
  predicate IsListed(account: Account, entries: seq<Entry>) {
    account.flag.Some? || exists e | e in entries :: e.account == account.number && e.party.Some?
  }

  function RowsOf(chart: seq<Account>, entries: seq<Entry>): seq<SubledgerAccount> {
    if chart == [] then []
    else
      var last := chart[|chart| - 1];
      RowsOf(chart[..|chart| - 1], entries) + if IsListed(last, entries) then [RowOf(last, entries)] else []
  }

  lemma {:induction false} RowsCoverTheChart(chart: seq<Account>, entries: seq<Entry>)
    ensures forall row ::
      row in RowsOf(chart, entries) <==> exists a :: a in chart && IsListed(a, entries) && row == RowOf(a, entries)
  {
    hide IsListed, RowOf;
    if chart != [] {
      var front, last := chart[..|chart| - 1], chart[|chart| - 1];
      RowsCoverTheChart(front, entries);
      assert chart == front + [last];
      forall row
        ensures row in RowsOf(chart, entries) <==>
          exists a :: a in chart && IsListed(a, entries) && row == RowOf(a, entries)
      {
        if row in RowsOf(front, entries) {
          var a :| a in front && IsListed(a, entries) && row == RowOf(a, entries);
          assert a in chart;
        }
        if row in RowsOf(chart, entries) && row !in RowsOf(front, entries) {
          assert last in chart && IsListed(last, entries) && row == RowOf(last, entries);
        }
      }
    }
  }

  // ---------- What the check decides ----------

  /** An entry that belongs where it is: a party of the account's kind on a reskontro
      account, no party on any other. */
  predicate IsWellPlaced(account: Account, e: Entry) {
    if account.flag.Some? then e.party.Some? && Some(e.party.value.kind) == account.flag else e.party.None?
  }

  ghost predicate AccountTiesOut(account: Account, entries: seq<Entry>) {
    forall e | e in entries && e.account == account.number :: IsWellPlaced(account, e)
  }

  ghost predicate BooksTieOut(chart: seq<Account>, entries: seq<Entry>) {
    forall account | account in chart :: AccountTiesOut(account, entries)
  }

  lemma {:induction false} CountIsZeroIffNone(p: Entry -> bool, entries: seq<Entry>)
    ensures Count(p, entries) >= 0
    ensures Count(p, entries) == 0 <==> forall e | e in entries :: !p(e)
  {
    if entries != [] {
      var front, last := entries[..|entries| - 1], entries[|entries| - 1];
      CountIsZeroIffNone(p, front);
      assert entries == front + [last];
      assert last in entries && forall e | e in front :: e in entries;
    }
  }

  lemma FlaggedRowIsClean(account: Account, entries: seq<Entry>)
    requires account.flag.Some?
    ensures Findings(RowOf(account, entries)) == [] <==> AccountTiesOut(account, entries)
  {
    var own := OnAccount(entries, account);
    FilterMembers(IsOn(account), entries);
    var without, wrong := (e: Entry) => e.party.None?, (e: Entry) => HasWrongKind(e, account.flag);
    CountIsZeroIffNone(without, own);
    CountIsZeroIffNone(wrong, own);
    assert AccountTiesOut(account, entries) <==> forall e | e in own :: !without(e) && !wrong(e);
    if forall e | e in own :: !without(e) {
      LedgerEqualsSubledger(account, entries, own);
    }
    hide OnAccount, Count, Total, AccountTiesOut;
  }

  lemma LedgerEqualsSubledger(account: Account, entries: seq<Entry>, own: seq<Entry>)
    requires own == OnAccount(entries, account) && forall e | e in own :: e.party.Some?
    ensures RowOf(account, entries).generalLedgerOre == RowOf(account, entries).subledgerOre
  {
    SumByAgree((e: Entry) => if ((e: Entry) => true)(e) then e.amountOre else 0,
               (e: Entry) => if ((e: Entry) => e.party.Some?)(e) then e.amountOre else 0, own);
  }

  lemma UnflaggedAccountIsClean(account: Account, entries: seq<Entry>)
    requires account.flag == None
    ensures AccountTiesOut(account, entries) <==> !IsListed(account, entries)
  {
  }

  /** The check is green if and only if every entry on a reskontro account carries a
      party of that account's kind and no other entry carries a party. */
  lemma CheckIsOkIffBooksTieOut(chart: seq<Account>, entries: seq<Entry>)
    ensures AllFindings(RowsOf(chart, entries)) == [] <==> BooksTieOut(chart, entries)
  {
    hide Findings, RowOf, IsListed, AccountTiesOut, RowsOf, AllFindings;
    var rows := RowsOf(chart, entries);
    NoFindingsAnywhere(rows);
    RowsCoverTheChart(chart, entries);
    forall a | a in chart
      ensures AccountTiesOut(a, entries) <==> (IsListed(a, entries) ==> Findings(RowOf(a, entries)) == [])
    {
      AccountIsClean(a, entries);
    }
    if AllFindings(rows) == [] {
      forall a | a in chart && IsListed(a, entries) ensures Findings(RowOf(a, entries)) == [] {
        assert RowOf(a, entries) in rows;
      }
    }
  }

  lemma AccountIsClean(a: Account, entries: seq<Entry>)
    ensures AccountTiesOut(a, entries) <==> (IsListed(a, entries) ==> Findings(RowOf(a, entries)) == [])
  {
    if a.flag.Some? {
      FlaggedRowIsClean(a, entries);
    } else {
      UnflaggedAccountIsClean(a, entries);
    }
    hide RowOf, AccountTiesOut;
  }

  // ---------- What the findings say ----------

  /** The number of entries on an account that satisfy `p`, and their amounts. */
  function CountOn(account: string, p: Entry -> bool, entries: seq<Entry>): int {
    SumBy((e: Entry) => if e.account == account && p(e) then 1 else 0, entries)
  }

  function AmountOn(account: string, p: Entry -> bool, entries: seq<Entry>): int {
    SumBy((e: Entry) => if e.account == account && p(e) then e.amountOre else 0, entries)
  }

  lemma OwnCounts(account: Account, p: Entry -> bool, entries: seq<Entry>)
    ensures Count(p, OnAccount(entries, account)) == CountOn(account.number, p, entries)
    ensures Total(p, OnAccount(entries, account)) == AmountOn(account.number, p, entries)
  {
    SumByFilter((e: Entry) => if p(e) then 1 else 0, IsOn(account),
                (e: Entry) => if e.account == account.number && p(e) then 1 else 0, entries);
    SumByFilter((e: Entry) => if p(e) then e.amountOre else 0, IsOn(account),
                (e: Entry) => if e.account == account.number && p(e) then e.amountOre else 0, entries);
  }

  lemma AmountsAddUp(account: string, p: Entry -> bool, q: Entry -> bool, either: Entry -> bool, entries: seq<Entry>)
    requires forall e :: either(e) == (p(e) || q(e)) && !(p(e) && q(e))
    ensures AmountOn(account, either, entries) == AmountOn(account, p, entries) + AmountOn(account, q, entries)
  {
    SumByPlus((e: Entry) => if e.account == account && p(e) then e.amountOre else 0,
              (e: Entry) => if e.account == account && q(e) then e.amountOre else 0,
              (e: Entry) => if e.account == account && either(e) then e.amountOre else 0, entries);
  }

  /** The difference between the account and its subledger is what carries no party. */
  lemma DifferenceIsWithoutParty(account: Account, entries: seq<Entry>)
    ensures
      var row := RowOf(account, entries);
      row.generalLedgerOre - row.subledgerOre == AmountOn(account.number, (e: Entry) => e.party == None, entries)
  {
    OwnCounts(account, (e: Entry) => true, entries);
    OwnCounts(account, (e: Entry) => e.party.Some?, entries);
    AmountsAddUp(account.number, (e: Entry) => e.party.Some?, (e: Entry) => e.party == None, (e: Entry) => true,
                 entries);
    hide OnAccount, SumBy, AmountOn;
  }

  /** Every finding of a row, on the entries it was made from. */
  lemma FindingsOnEntries(account: Account, entries: seq<Entry>)
    ensures
      var n := account.number;
      var withoutOre, withoutCount := AmountOn(n, (e: Entry) => e.party == None, entries),
        CountOn(n, (e: Entry) => e.party == None, entries);
      var wrong := (e: Entry) => e.party.Some? && Some(e.party.value.kind) != account.flag;
      Findings(RowOf(account, entries))
      == if account.flag == None then
           [PartyOutsideSubledger(n, CountOn(n, (e: Entry) => e.party.Some?, entries),
                                  AmountOn(n, (e: Entry) => e.party.Some?, entries))]
         else
           (if withoutOre != 0 then [Difference(n, withoutOre, withoutCount)]
            else if withoutCount > 0 then [WithoutParty(n, withoutCount)] else [])
           + (if CountOn(n, wrong, entries) > 0 then
                 [WrongKind(n, CountOn(n, wrong, entries), AmountOn(n, wrong, entries))]
               else [])
  {
    DifferenceIsWithoutParty(account, entries);
    OwnCounts(account, (e: Entry) => e.party.None?, entries);
    OwnCounts(account, (e: Entry) => e.party.Some?, entries);
    OwnCounts(account, (e: Entry) => HasWrongKind(e, account.flag), entries);
    SameCounts(account.number, (e: Entry) => e.party.None?, (e: Entry) => e.party == None, entries);
    SameCounts(account.number, (e: Entry) => HasWrongKind(e, account.flag),
               (e: Entry) => e.party.Some? && Some(e.party.value.kind) != account.flag, entries);
    hide OnAccount, Count, Total, CountOn, AmountOn;
  }

  lemma SameCounts(account: string, p: Entry -> bool, q: Entry -> bool, entries: seq<Entry>)
    requires forall e :: p(e) == q(e)
    ensures CountOn(account, p, entries) == CountOn(account, q, entries)
      && AmountOn(account, p, entries) == AmountOn(account, q, entries)
  {
    SumByAgree((e: Entry) => if e.account == account && p(e) then 1 else 0,
               (e: Entry) => if e.account == account && q(e) then 1 else 0, entries);
    SumByAgree((e: Entry) => if e.account == account && p(e) then e.amountOre else 0,
               (e: Entry) => if e.account == account && q(e) then e.amountOre else 0, entries);
  }

  /** All that the check reports about a chart: account by account, in chart order, for the
      flagged accounts and those with a party on them. */
  function FindingsOf(chart: seq<Account>, entries: seq<Entry>): seq<Deviation> {
    if chart == [] then []
    else
      var account := chart[|chart| - 1];
      FindingsOf(chart[..|chart| - 1], entries)
      + (if account.flag.Some? || exists e | e in entries :: e.account == account.number && e.party.Some?
         then Findings(RowOf(account, entries)) else [])
  }

  lemma {:induction false} FindingsGoByAccount(chart: seq<Account>, entries: seq<Entry>)
    ensures AllFindings(RowsOf(chart, entries)) == FindingsOf(chart, entries)
  {
    hide Findings, RowOf;
    if chart != [] {
      var front, last := chart[..|chart| - 1], chart[|chart| - 1];
      FindingsGoByAccount(front, entries);
      if IsListed(last, entries) {
        var rows := RowsOf(chart, entries);
        assert rows[..|rows| - 1] == RowsOf(front, entries) && rows[|rows| - 1] == RowOf(last, entries);
      } else {
        assert RowsOf(front, entries) + [] == RowsOf(front, entries);
        assert FindingsOf(front, entries) + [] == FindingsOf(front, entries);
      }
    }
  }

  // ---------- What a green check means ----------

  function AmountOf(e: Entry): int {
    e.amountOre
  }

  function AccountKey(e: Entry): string {
    e.account
  }

  function PartyKey(e: Entry): Option<Party> {
    e.party
  }

  /** The amounts on one account. */
  function On(account: string): Entry -> int {
    (e: Entry) => if e.account == account then e.amountOre else 0
  }

  /** The amounts that carry a party of one kind. */
  function OfKind(kind: string): Entry -> int {
    (e: Entry) => if e.party.Some? && e.party.value.kind == kind then e.amountOre else 0
  }

  /** The general ledger's balance of an account. */
  function AccountBalance(entries: seq<Entry>, account: string): int {
    GroupSum(AmountOf, AccountKey, entries, account)
  }

  /** What one party owes or is owed on one account. */
  function PartyOnAccount(entries: seq<Entry>, party: Party, account: string): int {
    GroupSum(On(account), PartyKey, entries, Some(party))
  }

  /** What one party owes or is owed in all. */
  function PartyBalance(entries: seq<Entry>, party: Party): int {
    GroupSum(AmountOf, PartyKey, entries, Some(party))
  }

  /** The ledger balance a row carries is the account's balance. */
  lemma RowCarriesTheBalance(account: Account, entries: seq<Entry>)
    ensures RowOf(account, entries).generalLedgerOre == AccountBalance(entries, account.number)
  {
    GroupSumIsFiltered(AmountOf, AccountKey, IsOn(account), entries, account.number);
    var own := OnAccount(entries, account);
    TotalOfAll(own);
  }

  lemma {:induction false} TotalOfAll(entries: seq<Entry>)
    ensures Total((e: Entry) => true, entries) == SumBy(AmountOf, entries)
  {
    if entries != [] {
      TotalOfAll(entries[..|entries| - 1]);
    }
  }

  ghost predicate CoversParties(parties: seq<Party>, entries: seq<Entry>) {
    IsDistinct(parties) && forall e | e in entries && e.party.Some? :: e.party.value in parties
  }

  function Keys(parties: seq<Party>): (keys: seq<Option<Party>>)
    ensures |keys| == |parties|
  {
    seq(|parties|, i requires 0 <= i < |parties| => Some(parties[i]))
  }

  lemma {:induction false} SumOverKeys(g: Option<Party> -> int, parties: seq<Party>)
    ensures SumBy(g, Keys(parties)) == SumBy((p: Party) => g(Some(p)), parties)
  {
    if parties != [] {
      SumOverKeys(g, parties[..|parties| - 1]);
      assert Keys(parties)[..|parties| - 1] == Keys(parties[..|parties| - 1]);
    }
  }

  lemma KeysCover(parties: seq<Party>, entries: seq<Entry>)
    requires CoversParties(parties, entries)
    ensures IsDistinct(Keys(parties)) && forall e | e in entries && e.party.Some? :: e.party in Keys(parties)
  {
    forall e | e in entries && e.party.Some? ensures e.party in Keys(parties) {
      var i :| 0 <= i < |parties| && parties[i] == e.party.value;
      assert Keys(parties)[i] == e.party;
    }
  }

  /** The tie-out per account: when the check is green, a reskontro account's balance
      is the sum of its parties' balances on it. */
  lemma PartiesAddUpToTheAccount(chart: seq<Account>, entries: seq<Entry>, parties: seq<Party>, account: Account)
    requires AllFindings(RowsOf(chart, entries)) == [] && account in chart && account.flag.Some?
    requires CoversParties(parties, entries)
    ensures SumBy((p: Party) => PartyOnAccount(entries, p, account.number), parties)
         == AccountBalance(entries, account.number)
  {
    CheckIsOkIffBooksTieOut(chart, entries);
    assert AccountTiesOut(account, entries);
    hide RowsOf, AllFindings, GroupSum, SumBy;
    KeysCover(parties, entries);
    var f := On(account.number);
    SumByGroups(f, PartyKey, Keys(parties), entries);
    var g := (k: Option<Party>) => GroupSum(f, PartyKey, entries, k);
    SumOverKeys(g, parties);
    SumByAgree((p: Party) => g(Some(p)), (p: Party) => PartyOnAccount(entries, p, account.number), parties);
    SumOnAccount(entries, account.number);
  }

  lemma {:induction false} SumOnAccount(entries: seq<Entry>, account: string)
    ensures SumBy(On(account), entries) == AccountBalance(entries, account)
  {
    if entries != [] {
      var front, last := entries[..|entries| - 1], entries[|entries| - 1];
      SumOnAccount(front, account);
      assert entries == front + [last];
      GroupSumOne(AmountOf, AccountKey, front, last, account);
    }
  }

  /** The tie-out per kind: when the check is green and the chart lists every account
      once, all customers' balances add up to the customer accounts' balances, and
      likewise for suppliers. */
  lemma PartiesOfAKindAddUpToItsAccounts(chart: seq<Account>, entries: seq<Entry>, parties: seq<Party>, kind: string)
    requires AllFindings(RowsOf(chart, entries)) == [] && CoversParties(parties, entries)
    requires CoversAccounts(chart, entries)
    ensures SumBy((p: Party) => if p.kind == kind then PartyBalance(entries, p) else 0, parties)
         == SumBy((a: Account) => if a.flag == Some(kind) then AccountBalance(entries, a.number) else 0, chart)
  {
    CheckIsOkIffBooksTieOut(chart, entries);
    hide RowsOf, AllFindings;
    PartiesOfKind(entries, parties, kind);
    AccountsOfKind(chart, entries, kind);
  }

  lemma PartyOfKind(entries: seq<Entry>, p: Party, kind: string)
    ensures GroupSum(OfKind(kind), PartyKey, entries, Some(p)) == if p.kind == kind then PartyBalance(entries, p) else 0
  {
    if p.kind == kind {
      GroupSumAgree(OfKind(kind), AmountOf, PartyKey, entries, Some(p));
    } else {
      GroupSumZero(OfKind(kind), PartyKey, entries, Some(p));
    }
  }

  lemma PartiesOfKind(entries: seq<Entry>, parties: seq<Party>, kind: string)
    requires CoversParties(parties, entries)
    ensures SumBy((p: Party) => if p.kind == kind then PartyBalance(entries, p) else 0, parties)
         == SumBy(OfKind(kind), entries)
  {
    hide GroupSum, SumBy;
    KeysCover(parties, entries);
    SumByGroups(OfKind(kind), PartyKey, Keys(parties), entries);
    var g := (k: Option<Party>) => GroupSum(OfKind(kind), PartyKey, entries, k);
    SumOverKeys(g, parties);
    forall p: Party ensures g(Some(p)) == if p.kind == kind then PartyBalance(entries, p) else 0 {
      PartyOfKind(entries, p, kind);
    }
    SumByAgree((p: Party) => g(Some(p)), (p: Party) => if p.kind == kind then PartyBalance(entries, p) else 0, parties);
  }

  ghost predicate CoversAccounts(chart: seq<Account>, entries: seq<Entry>) {
    && IsDistinct(Numbers(chart))
    && forall e | e in entries :: e.account in Numbers(chart)
  }

  function Numbers(chart: seq<Account>): (numbers: seq<string>)
    ensures |numbers| == |chart|
  {
    seq(|chart|, i requires 0 <= i < |chart| => chart[i].number)
  }

  lemma {:induction false} SumOverNumbers(g: string -> int, chart: seq<Account>)
    ensures SumBy(g, Numbers(chart)) == SumBy((a: Account) => g(a.number), chart)
  {
    if chart != [] {
      SumOverNumbers(g, chart[..|chart| - 1]);
      assert Numbers(chart)[..|chart| - 1] == Numbers(chart[..|chart| - 1]);
    }
  }

  lemma AccountOfKind(account: Account, entries: seq<Entry>, kind: string)
    requires AccountTiesOut(account, entries)
    ensures GroupSum(OfKind(kind), AccountKey, entries, account.number)
         == if account.flag == Some(kind) then AccountBalance(entries, account.number) else 0
  {
    if account.flag == Some(kind) {
      GroupSumAgree(OfKind(kind), AmountOf, AccountKey, entries, account.number);
    } else {
      GroupSumZero(OfKind(kind), AccountKey, entries, account.number);
    }
  }

  lemma AccountsOfKind(chart: seq<Account>, entries: seq<Entry>, kind: string)
    requires BooksTieOut(chart, entries) && CoversAccounts(chart, entries)
    ensures SumBy((a: Account) => if a.flag == Some(kind) then AccountBalance(entries, a.number) else 0, chart)
         == SumBy(OfKind(kind), entries)
  {
    hide AccountTiesOut, GroupSum, SumBy;
    SumByGroups(OfKind(kind), AccountKey, Numbers(chart), entries);
    var g := (n: string) => GroupSum(OfKind(kind), AccountKey, entries, n);
    SumOverNumbers(g, chart);
    forall a | a in chart
      ensures g(a.number) == if a.flag == Some(kind) then AccountBalance(entries, a.number) else 0
    {
      AccountOfKind(a, entries, kind);
    }
    SumByAgree((a: Account) => g(a.number),
               (a: Account) => if a.flag == Some(kind) then AccountBalance(entries, a.number) else 0, chart);
  }
}
