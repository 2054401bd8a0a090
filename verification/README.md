# regnmed ledger core: verification

This project models the pure ledger core of regnmed (`crates/regnmed-core`) and the two small
concurrent pieces beside it - the agent workers' claim/run/release protocol and the API's rate
limiter - and proves what their documentation promises, for all inputs, all runs and all
interleavings. The command is `dafny verify dfyconfig.toml`.

## How it is laid out

One module per source file, in the form of the source: loops over mutable variables are methods
with invariants, the classes with fields are classes, expression code is functions. Each method is
tied to a specification function, and the theorems are about those.

- `Anchor` - netstring leaves, the Merkle tree built level by level, inclusion proofs. The hash is a
  function parameter about which nothing is assumed, so soundness reads "or a collision is exhibited
  between what the prover hashed and what the verifier hashed". The reference is the recursive tree
  hash and audit path of section 2.1 of RFC 6962.
- `Ehf`, `EhfImport`, with `Xml` and `Ubl` - the invoice renderer and the importer, over a stream of
  start, end and text events; escaping, number formats and trimming at character level. `EhfLeaves` and
  `EhfTotals` say what a rendered document says, `EhfRoundTrip` what the importer makes of it, and
  `EhfReading` and `EhfHeader` what it makes of any other.
- `Bank`, `CsvUtil`, `BankCsv` - the matcher that refuses ties and the CSV reader.
- `Camt053`, `CamtStatement`, `CamtEntries`, `CamtBalances`, `CamtRoundTrip` - the camt.053 event
  machine, what a document, its entries and its balances mean, and that written statements come back.
- `AgentWorker`, `AgentLoop` - the worker protocol as a state machine over atomic database steps with
  crashes, failed calls and calls whose answer is lost; the bounded conversation and its message log.
- `RateLimit` - the token bucket over whole runs.
- `ChartOfAccounts`, `Audit`, `Budget`, `BudgetFigures`, `Accrual`, `Assets`, `Currency` - sums that survive mapping,
  regrouping, splitting and rounding.
- `Wrappers`, `Ids`, `Decimal`, `Money`, `Text`, `Calendar`, `Sorting`, `Sums`, `Rounding` - what they share.

## What the proofs found

- **Leases and slow runs.** A second process gets onto a task exactly when the task is overdue: its row
  is older than 15 minutes while a process is still on it (`AgentWorker.ClaimOverlapsIffOverdue`), and any
  run that goes on long enough makes it so. The comment on the lease time
  (`crates/regnmed-db/src/agent_task.rs:225-231`) says it outlasts the slowest honest run; the code does
  not ensure it: a model turn may take 180 seconds (`crates/regnmed-agent/src/llm.rs:131`) and a run has
  up to twelve, while the queue redelivers after 20 minutes. Because `release_task` deletes by task id,
  one expiry also costs the next holder its fresh lease (`AgentWorker.OneExpiryBreaksBothGuarantees`).
- **Rate limiter.** The instant is read before the lock is taken. The documented budget holds as long as
  the clock's forward moves between an integration's calls fit the window, in lock order or not; over all
  orders it holds for no window longer than an instant (`RateLimit.WindowIsBoundedIffAnInstant`).
- **camt.053 amounts.** `parse_amount` is right for the unsigned amounts camt.053 has, and wrong for a
  negative amount with øre (`Camt053.NegativeAmountLosesItsOre`); the SAF-T importer calls the same
  function.
- **camt.053 entries.** Nothing leaks between entries, balances and statements, except that an entry
  inside an entry - which the standard rules out and the machine does not check - wipes what the outer one
  had read; a booked and dated one is then booked twice, unless the outer one's status comes after it and
  says otherwise (`CamtEntries.NestedEntryIsBookedTwiceIff`).
- **CSV rows.** The importer cuts a file into lines before it looks at quotes, so a quoted field with a
  line break (section 2 of RFC 4180) does not come back; every other quoted field with a trimmed text does
  (`BankCsv.WrittenFileIsReadBackIff`). Where the description comes first such a transaction disappears
  without an error (`BankCsv.BrokenRowsDisappear`), against the promise of "never a silent half-import"
  (`crates/regnmed-core/src/bankcsv.rs:8-9`).
- **CSV dates.** A two-digit year is taken by the first format, whose `%Y` accepts it, as a year of the
  first century; the format meant for it is never reached (`CsvUtil.ShortYearsAreMisread`).
- **Matching.** Independence from input order needs no distinct ids, only the same transactions and
  entries with their multiplicities (`Bank.MatchingIgnoresInputOrder`).
- **EHF.** The round trip holds for every document, not only tidy ones: texts come back trimmed
  (`EhfRoundTrip.RenderedDocumentIsReadBack`). A rate that is missing, zero or negative comes back as
  zero, a positive one as itself.
- **EHF from elsewhere.** The lines come from their own blocks in every document, but the VAT is the last
  tax total anywhere in it: one stated in a line, which UBL 2.1 allows, is read for the invoice's
  (`EhfReading.VatIsTheDocumentsIff`). A percentage is cut after two bytes of its fraction, which ends the
  program when they end inside a character (`EhfImport.PercentPanicsIff`).

## Model

| member | source | states |
|---|---|---|
| Anchor.PushField | crates/regnmed-core/src/anchor.rs:150-155 | a field is appended as `<decimal length>:<bytes>;` and nothing else of the buffer changes |
| Anchor.LeafBuffer | crates/regnmed-core/src/anchor.rs:62-68 | the buffer built field by field is the leaf preimage: the byte 0, then version, company id, decimal sequence number and hash as netstring fields |
| Anchor.LeafHash | crates/regnmed-core/src/anchor.rs:62-70 | the digest of a leaf is the hash of its preimage |
| Anchor.NodeHash | crates/regnmed-core/src/anchor.rs:72-78 | the digest of a node is the hash of the byte 1, the left child and the right child, in that order |
| Anchor.LeafPreimageIs | crates/regnmed-core/src/anchor.rs:62-70 | byte for byte what is hashed for every leaf: 0x00, then the version, the company id, the decimal sequence number and the chain hash, each as `<length>:<bytes>;` |
| Anchor.NextLevel | crates/regnmed-core/src/anchor.rs:93-102 | one pass over a level: place i of the next is the hash of 0x01 and the children 2i and 2i + 1, in that order, or an odd last node carried up |
| Anchor.TreeHashIs | crates/regnmed-core/src/anchor.rs:72-104 | with 2^d the largest power of two below the number of digests, the tree is the hash of 0x01, the tree of the first 2^d and the tree of the rest, in that order |
| Anchor.FoldIs | crates/regnmed-core/src/anchor.rs:138-148 | one step of a proof puts a left sibling before what was folded so far and a right one after it |
| Anchor.LeavesStandByCompany | crates/regnmed-core/src/anchor.rs:80-92 | the leaves of the root are all the leaves, ordered by company id, byte by byte |
| Anchor.RootOfTwo | crates/regnmed-core/src/anchor.rs:80-104 | over two companies the root is the hash of 0x01, the lower company's leaf digest and the higher one's, whichever way they are given |
| Anchor.FieldIsPrefixFree | crates/regnmed-core/src/anchor.rs:150-155 | two netstring fields followed by anything are equal only if the fields are: no field is a proper beginning of another |
| Anchor.FieldsInjective | crates/regnmed-core/src/anchor.rs:62-70 | no two lists of fields share an encoding |
| Anchor.LeafPreimageInjective | crates/regnmed-core/src/anchor.rs:62-70 | two leaves with one preimage are the same company, sequence number and hash |
| Anchor.NodePreimageInjective | crates/regnmed-core/src/anchor.rs:72-78 | two nodes with one preimage have the same children in the same order |
| Anchor.LeafIsNeverNode | crates/regnmed-core/src/anchor.rs:62-78 | no leaf preimage is a node preimage (the 0x00 and 0x01 prefixes) |
| Anchor.PairUpKeepsTheTree | crates/regnmed-core/src/anchor.rs:93-102 | one pass of the level loop, odd last node promoted, leaves the recursive tree hash of section 2.1 of RFC 6962 unchanged, at every size |
| Anchor.PairUpKeepsThePath | crates/regnmed-core/src/anchor.rs:113-134 | one level up, the audit path of section 2.1.1 of RFC 6962 loses exactly the sibling the loop pushed (or nothing, for a promoted node) |
| Anchor.HashAll | crates/regnmed-core/src/anchor.rs:88-89 | the leaf level is the digests of the leaves, in order |
| Anchor.MerkleRoot | crates/regnmed-core/src/anchor.rs:86-104 | the level-by-level loop ends and returns the recursive RFC 6962 tree hash over the leaves in company order; nothing for no leaves |
| Anchor.Position | crates/regnmed-core/src/anchor.rs:108-110 | the first leaf of the company, or nothing exactly when it has none |
| Anchor.ClimbLevels | crates/regnmed-core/src/anchor.rs:112-135 | the loop that collects one sibling per level returns the recursive audit path of the leaf |
| Anchor.InclusionProof | crates/regnmed-core/src/anchor.rs:106-136 | nothing exactly when the company is not among the leaves; otherwise the audit path of its first leaf in company order |
| Anchor.VerifyInclusion | crates/regnmed-core/src/anchor.rs:138-148 | accepts exactly when the leaf digest folded through the steps, first step first, is the root |
| Anchor.RootIgnoresOrder | crates/regnmed-core/src/anchor.rs:80-104 | with one chain head per company every permutation of the leaves has the same root |
| Anchor.AuditPathFolds | crates/regnmed-core/src/anchor.rs:108-148 | folding a leaf digest through its audit path gives the tree hash |
| Anchor.ProofsAreComplete | crates/regnmed-core/src/anchor.rs:106-148 | for every leaf set and every position, the proof handed out is accepted against the root of the same leaves, and has at most d steps whenever there are at most 2^d leaves |
| Anchor.OwnLeafIsAccepted | crates/regnmed-core/src/anchor.rs:106-148 | with one chain head per company, the proof handed out for a leaf's company is accepted for that very leaf |
| Anchor.AuditPathIsShort | crates/regnmed-core/src/anchor.rs:112-135 | a proof over n leaves has at most ceil(log2 n) steps |
| Anchor.FoldIsSound | crates/regnmed-core/src/anchor.rs:88-148 | if any leaf and any list of steps fold to a tree hash, the leaf is at some position with exactly that position's audit path, or two different inputs with one digest are among those hashed on the two sides |
| Anchor.AcceptedLeafIsAnchored | crates/regnmed-core/src/anchor.rs:138-148 | soundness against the published root: an accepted leaf is in the anchored set with the same sequence number and hash, or a collision is exhibited between the two computations |
| Anchor.RewrittenHeadIsRejected | crates/regnmed-core/src/anchor.rs:1-36 | a different chain head for an anchored company is rejected with every proof, unless that proof exhibits a collision |
| Decimal.ValueOfToString | crates/regnmed-core/src/ehf.rs:132-143 | the digits of a number denote that number |
| Decimal.ValueOfPadded | crates/regnmed-core/src/currency.rs:66-70 | zero-padded digits denote their number whenever it fits the width |
| Decimal.ParseIntIs | crates/regnmed-core/src/camt053.rs:66-72 | digits are parsed as their number with a minus, a plus or no sign before them, and no other text is |
| Money.ReadOreOfTwoDecimals | crates/regnmed-core/src/ehf_import.rs:59-80 | an amount written with two decimals is read back exactly, the sign of -0.xx included, for every amount |
| Money.DecimalIsRead | crates/regnmed-core/src/ehf_import.rs:59-80 | signs, whole kroner and up to two decimals are read as the amount they show: the first sign decides, one decimal is tens of øre |
| Money.OnlyDecimalsAreRead | crates/regnmed-core/src/ehf_import.rs:59-80 | and no other text is read as an amount |
| Xml.UnescapeEsc | crates/regnmed-core/src/ehf.rs:115-130 | unescaping undoes escaping, for every text |
| Xml.EscHoldsNoMarkup | crates/regnmed-core/src/ehf.rs:115-128 | escaped text holds no bracket, no quote of either kind, and no ampersand but one that starts a predefined entity |
| Xml.EscOfPlain | crates/regnmed-core/src/ehf.rs:115-128 | text without those five characters is left as it is |
| Xml.TrimEsc | crates/regnmed-core/src/ehf.rs:115-130 | trimming escaped text is escaping trimmed text, so the reader's trimming commutes with the writer's escaping |
| Ehf.QuantityIsThousandths | crates/regnmed-core/src/ehf.rs:155-165 | a quantity is written as a minus if it is negative, its whole part, and three decimals that are its thousandths |
| Ehf.CollectKeys | crates/regnmed-core/src/ehf.rs:370-376 | the loop over the lines lists their tax keys in order of first appearance |
| Ehf.KeysPartitionLines | crates/regnmed-core/src/ehf.rs:369-376 | no tax key is listed twice and a key is listed exactly when some line has it: every line is in one group and one only |
| Ehf.GroupsSumToTotal | crates/regnmed-core/src/ehf.rs:379-403 | for any amount a line carries, the groups' sums add up to the sum over all lines |
| Ehf.SubtotalsReconcile | crates/regnmed-core/src/ehf.rs:294-295 | the subtotals' taxable amounts add up to the document's net and their tax amounts to its vat, for any list of lines |
| Ehf.Writer.OpenTag | crates/regnmed-core/src/ehf.rs:196-203 | appends the start tag and goes one level deeper |
| Ehf.Writer.CloseTag | crates/regnmed-core/src/ehf.rs:204-211 | appends the end tag and comes one level up |
| Ehf.Writer.WriteLeaf | crates/regnmed-core/src/ehf.rs:212-227 | appends one element with its escaped text, at the same depth |
| Ehf.Writer.WriteParty | crates/regnmed-core/src/ehf.rs:228-284 | appends one party; depth is back where it was |
| Ehf.Writer.WriteHeader | crates/regnmed-core/src/ehf.rs:297-331 | appends the document header; depth is back where it was |
| Ehf.Writer.WritePayment | crates/regnmed-core/src/ehf.rs:354-367 | appends the payment instructions, only for an invoice with an account number, the KID only inside them |
| Ehf.Writer.WriteDelivery | crates/regnmed-core/src/ehf.rs:336-352 | appends the delivery, only when there is a date or a place; depth is back where it was |
| Ehf.Writer.WriteSubtotal | crates/regnmed-core/src/ehf.rs:379-403 | appends one subtotal with the sums over its group; depth is back where it was |
| Ehf.Writer.WriteTotals | crates/regnmed-core/src/ehf.rs:406-411 | appends net twice and gross twice as the totals; depth is back where it was |
| Ehf.Writer.WriteTaxTotal | crates/regnmed-core/src/ehf.rs:369-405 | appends the tax total and one subtotal per tax key; depth is back where it was |
| Ehf.Writer.WriteLine | crates/regnmed-core/src/ehf.rs:421-445 | appends one numbered line; depth is back where it was |
| Ehf.Render | crates/regnmed-core/src/ehf.rs:288-449 | the writer, driven step by step, produces the document stream |
| EhfLeaves.PartySays | crates/regnmed-core/src/ehf.rs:228-284 | the texts a party adds and the elements each stands in, written out, in order |
| EhfLeaves.HeaderSays | crates/regnmed-core/src/ehf.rs:297-331 | the texts of the header: identifiers, number, dates, type code 380 or 381, currency, references, each in its place |
| EhfLeaves.LineSays | crates/regnmed-core/src/ehf.rs:421-445 | the texts of a line: its number, quantity, net, name, category, rate and price, each in its place |
| EhfLeaves.DocumentSays | crates/regnmed-core/src/ehf.rs:288-449 | all that the stream of any document says: every text with the path of its elements, nothing else, and every element closed |
| EhfTotals.TotalsSayTheSums | crates/regnmed-core/src/ehf.rs:405-411 | over the stream of every document: the tax total says the sum of the lines' VAT, the two net totals the sum of their net, the two gross totals both, each exactly once |
| EhfTotals.SubtotalsSayTheirGroups | crates/regnmed-core/src/ehf.rs:369-403 | over the stream of every document: one subtotal for each rate the lines have; its four texts, read by the importer, are the net of the lines at that rate, their VAT, the category the rate calls for, and the rate |
| EhfTotals.SubtotalsAddUpAsRead | crates/regnmed-core/src/ehf.rs:294-295 | as read, the taxable amounts add up to the TaxExclusiveAmount and the tax amounts to the tax total's own, in every document |
| EhfImport.Parse | crates/regnmed-core/src/ehf_import.rs:105-260 | the event loop over path, line and invoice computes the state machine's result; errors stop it where they occur, and so does a percentage whose cut ends the program |
| EhfImport.PercentPanicsIff | crates/regnmed-core/src/ehf_import.rs:87-99 | reading a percentage panics if and only if its whole part is a number and the second byte of its fraction is not the end of a character; otherwise it never does |
| EhfImport.PercentPanicWitness | crates/regnmed-core/src/ehf_import.rs:95 | one such text: 25.1 and an å |
| EhfRoundTrip.AmountRoundTrip | crates/regnmed-core/src/ehf_import.rs:59-80 | the importer reads every amount the renderer writes, exactly |
| EhfRoundTrip.PercentRoundTrip | crates/regnmed-core/src/ehf_import.rs:87-99 | a written percentage is read back exactly if and only if it is not negative or is whole; otherwise its hundredths are added instead of subtracted |
| EhfRoundTrip.DateRoundTrip | crates/regnmed-core/src/ehf_import.rs:82-85 | written dates are read back exactly |
| EhfRoundTrip.RunLeaf | crates/regnmed-core/src/ehf_import.rs:175-244 | reading a rendered leaf has the effect of its trimmed text at its path and leaves the reader where it was |
| EhfRoundTrip.PartyRead | crates/regnmed-core/src/ehf.rs:228-284 | a rendered party adds its name and number to the invoice and nothing else, whichever optional parts it has |
| EhfRoundTrip.PaymentRead | crates/regnmed-core/src/ehf.rs:354-367 | account number and KID come back only for an invoice with an account number |
| EhfRoundTrip.TaxTotalRead | crates/regnmed-core/src/ehf.rs:369-405 | of the whole tax total only the document's vat is taken up, whatever the groups |
| EhfRoundTrip.LinesRead | crates/regnmed-core/src/ehf.rs:421-445 | the first n rendered lines come back as n lines, in order, with description, net and rate |
| EhfRoundTrip.RenderedDocumentIsReadBack | crates/regnmed-core/src/ehf_import.rs:1-15 | for every document whatever: reading what was rendered succeeds and gives kind, number, dates, currency, parties, payment, totals and lines as the document has them, texts trimmed |
| EhfRoundTrip.RatesComeBack | crates/regnmed-core/src/ehf.rs:166-175 | a positive rate comes back as itself, a missing, zero or negative one as zero |
| EhfRoundTrip.CanonicalDocumentIsReadBackExactly | crates/regnmed-core/src/ehf.rs:288-449 | with trimmed non-empty texts and nine-digit numbers every field comes back word for word |
| EhfReading.FieldInsideLine | crates/regnmed-core/src/ehf_import.rs:235-241 | below a line a text's meaning for the line depends on the path from the line only |
| EhfReading.InsideDocument | crates/regnmed-core/src/ehf_import.rs:139-244 | from any state, running the machine over any piece of a document completes exactly the lines read from its line blocks, lines in lines included |
| EhfReading.LinesComeFromTheirBlocks | crates/regnmed-core/src/ehf_import.rs:105-260 | the lines of every document that is read, rendered here or not, are what its line blocks become, in order, each read from its own contents and nothing else |
| EhfReading.NothingElseMakesLines | crates/regnmed-core/src/ehf_import.rs:155-172 | documents that agree on their line blocks agree on the lines, whatever else they hold |
| EhfReading.PlainBlockIsOneLine | crates/regnmed-core/src/ehf_import.rs:155-172 | a line block with no other inside becomes exactly one line |
| EhfReading.LineStartsAfresh | crates/regnmed-core/src/ehf_import.rs:155-160 | either line tag opens a line with no description, no amount and no rate |
| EhfReading.NestedLineTakesOver | crates/regnmed-core/src/ehf_import.rs:155-172 | a line that opens inside another takes its place: whatever the outer one said before or says after, it comes out as the inner one without the description |
| EhfReading.VatIsTheLastTaxTotal | crates/regnmed-core/src/ehf_import.rs:232-234 | the VAT of every document that is read is the last TaxTotal/TaxAmount in it, at whatever depth, or zero |
| EhfReading.VatIsTheDocumentsIff | crates/regnmed-core/src/ehf_import.rs:232-234 | the document's own tax total is read as its VAT if and only if none comes after it, or the last that does happens to be the same |
| EhfReading.LineTaxIsReadForTheInvoices | crates/regnmed-core/src/ehf_import.rs:232-234 | for all amounts: an invoice whose line states its own tax total is read with the line's tax for the invoice's |
| EhfReading.NetAndGross | crates/regnmed-core/src/ehf_import.rs:223-258 | net and gross of every document that is read: what its totals say; a net of zero is the sum of the lines, if there are any, and a gross of zero is net plus VAT |
| EhfReading.OmittedTotalsAreMadeUp | crates/regnmed-core/src/ehf_import.rs:250-258 | a document that states no net but its lines' has the sum of its lines as net, and one that states no gross has net plus VAT |
| EhfHeader.HeaderIsWhatItsTextsSay | crates/regnmed-core/src/ehf_import.rs:105-260 | for every stream that is read: credit note or not by the first element that names a document; number, dates, currency, KID and account number are the last texts in their places; the seller has the last registered name, or else the last party name; each party has the first number of nine digits in one of its three places |
| EhfHeader.NumberIsTheLastNineDigits | crates/regnmed-core/src/ehf_import.rs:207-222 | the last nine digits of a text are its organisation number, however they are wrapped |
| EhfHeader.RefusedIff | crates/regnmed-core/src/ehf_import.rs:175-244 | a text ends the reading if and only if it stands for a date, a wanted amount or a line's rate and cannot be read as one, and the error shows it |
| Bank.Closest | crates/regnmed-core/src/bank.rs:52-70 | the scan over the entries finds the unique closest unused candidate, or nothing when there is none or a tie |
| Bank.ProposeMatches | crates/regnmed-core/src/bank.rs:39-83 | the nested loops over `used_entries` compute, in date-amount-id order, each transaction's choice among the entries still unused |
| Bank.MatchingIgnoresInputOrder | crates/regnmed-core/src/bank.rs:47-49 | the result is the same list for every permutation of the transactions and of the entries |
| Bank.MatchesAgree | crates/regnmed-core/src/bank.rs:54-61 | every matched pair has equal amounts and dates no more than the window apart |
| Bank.ProposalsNameTheirPair | crates/regnmed-core/src/bank.rs:73-80 | the k-th proposal carries the ids of the k-th pair, and says same day if and only if the two dates are equal |
| Bank.TurnsAreTaken | crates/regnmed-core/src/bank.rs:47-49 | the turns are all the transactions, by booking date, then amount, then id byte by byte |
| Bank.ChoiceOnFields | crates/regnmed-core/src/bank.rs:52-70 | a transaction's choice is an entry if and only if it is unused, of equal amount and within the window, there once, and nearer in days than every other such entry |
| Bank.NoChoiceOnFields | crates/regnmed-core/src/bank.rs:52-70 | there is no choice if and only if no unused entry of equal amount is within the window, or two of them are equally near and none is nearer |
| Bank.EntriesAreConserved | crates/regnmed-core/src/bank.rs:71-74 | matched and unmatched entries are together exactly the entries: none is used twice, none disappears |
| Bank.TransactionsAreConserved | crates/regnmed-core/src/bank.rs:51-81 | no transaction is matched twice |
| Bank.ProposalsAreOneToOne | crates/regnmed-core/src/bank.rs:71-80 | with distinct ids no transaction and no entry is in two proposals |
| Bank.EveryTurnIsJustified | crates/regnmed-core/src/bank.rs:52-81 | each transaction, at its turn, was given the unique closest unused entry, or there was no candidate, or the closest ones tied |
| Bank.TieTakesNothing | crates/regnmed-core/src/bank.rs:62-73 | a tie is refused, not guessed |
| Bank.NoChoiceMeansTie | crates/regnmed-core/src/bank.rs:62-73 | a transaction with a candidate that got nothing met a tie among the closest |
| AgentWorker.ClaimTable.ClaimTask | crates/regnmed-db/src/agent_task.rs:234-256 | one atomic test-and-set: taken exactly when there is no row or the row is older than fifteen minutes, and only then is the row set to now |
| AgentWorker.ClaimTable.ReleaseTask | crates/regnmed-db/src/agent_task.rs:258-266 | the task's row is gone, whoever held it |
| AgentWorker.HoldersBefore | crates/regnmed-agent/src/main.rs:63-92 | a step makes a process the holder of a task only by a successful claim |
| AgentWorker.ClaimIsGrantedIff | crates/regnmed-db/src/agent_task.rs:234-256 | a claim goes through if and only if the task has no row or one more than fifteen minutes old; then the row is of that minute, else nothing changes |
| AgentWorker.RepliesAndTheDatabase | crates/regnmed-agent/src/main.rs:63-92 | a lost answer changes nothing about what a call did to the database, a failed call does nothing to it, and a process that dies leaves its row |
| AgentWorker.StepKeepsCover | crates/regnmed-db/src/agent_task.rs:225-266 | while there is one holder per task, every holder keeps a lease at least as young as its claim |
| AgentWorker.StepKeepsExclusion | crates/regnmed-db/src/agent_task.rs:225-256 | the lease keeps a second process out: while every holder has its row, no step makes a second holder except a claim that goes through on an overdue task |
| AgentWorker.ClaimOverlapsIffOverdue | crates/regnmed-db/src/agent_task.rs:225-256 | from any state with one process per task, a nudge and a claim by an idle process put two on the task if and only if it is overdue: its row is older than fifteen minutes and a process is still on it |
| AgentWorker.OneProcessPerTaskIffNoOverdueClaim | crates/regnmed-agent/src/main.rs:153-205 | over every interleaving of workers, redeliveries, sweeps, crashes and failed calls: at most one process per task in all states, if and only if no claim goes through on an overdue task |
| AgentWorker.OverlapIsOneClaimAwayIffOverdue | crates/regnmed-agent/src/main.rs:153-205 | every run of the system that has kept one process per task extends by one nudge and one claim to an overlap if and only if some task is overdue |
| AgentWorker.LongRunsBecomeOverdue | crates/regnmed-db/src/agent_task.rs:225-256 | any run whatever that goes on for sixteen more minutes makes its task overdue |
| AgentWorker.RunsInTimeNeverOverlap | crates/regnmed-db/src/agent_task.rs:225-232 | if every run is released or dead within fifteen minutes of its claim there is never more than one on a task |
| AgentWorker.EveryRunWritesAtMostOneOutcome | crates/regnmed-agent/src/lib.rs:249-341 | in every interleaving, a run's records are nothing, its `pagar`, or its `pagar` and exactly one outcome |
| AgentWorker.OverForGood | crates/regnmed-agent/src/lib.rs:249-341 | a run that has returned, crashed or been released never writes again |
| AgentWorker.RunThatFindsTheTaskClosedWritesNothing | crates/regnmed-agent/src/lib.rs:257-265 | a run whose task's newest record is `utfort` or `avvist` when it reads it writes no record, then or at any later time |
| AgentWorker.ClosedIsFinal | crates/regnmed-db/src/agent_task.rs:183-223 | once the newest record of a task is `utfort` or `avvist` nobody adds to its trail, ever |
| AgentWorker.NewestDecides | crates/regnmed-db/src/agent_task.rs:183-223 | the status of a task is that of the newest record on it |
| AgentWorker.NoRecordNoStatus | crates/regnmed-db/src/agent_task.rs:183-223 | a task has no status if and only if there is no record on it |
| AgentWorker.RunGoesOnIff | crates/regnmed-agent/src/lib.rs:257-265 | a run that has read its task goes on if and only if the read succeeded and there is no record or the newest is `pagar` or `sporsmal`; otherwise it returns |
| AgentWorker.NothingFollowsTheEnd | crates/regnmed-db/src/agent_task.rs:183-223 | in every execution, no record is ever added to a task's trail after a `utfort` or an `avvist` in it |
| AgentWorker.NoRecordFallsBetween | crates/regnmed-agent/src/lib.rs:293-341 | if every run is over within fifteen minutes of its claim, the records of one run stand together: no other worker's record falls between a `pagar` and its outcome |
| AgentWorker.OverdueWorkIsInterleaved | crates/regnmed-agent/src/lib.rs:293-341 | the other half: from every run of the system that has kept one process per task, a process at work on an open, overdue task can have any idle process's `pagar` put between its own `pagar` and whatever outcome it comes to |
| AgentWorker.LateReleaseOpensTheDoor | crates/regnmed-db/src/agent_task.rs:258-266 | from any state with two processes on a task, the release of one lets a third claim through at once, however fresh the other's lease |
| AgentWorker.OneExpiryBreaksBothGuarantees | crates/regnmed-agent/src/main.rs:153-205 | an interleaving in which one expiry leads to interleaved records and to a third process beside a second whose lease is brand new |
| AgentLoop.OpenLog | crates/regnmed-agent/src/lib.rs:181-194 | the log opens with the role, the task and the trail so far: one message each, a line of the agent's from the assistant and any other from the user |
| AgentLoop.RunBuffered | crates/regnmed-agent/src/lib.rs:220-234 | calls start in order, at most four are in flight, and each finishes whenever it does: whatever the order of starts and finishes, the loop ends and gives out one answer per call, in the order asked |
| AgentLoop.RunTools | crates/regnmed-agent/src/lib.rs:206-238 | a turn appends the echoed request and then one result per call, in the order asked, with the call's id and its answer, cut to eight thousand characters and a mark if it is longer, however the calls overlapped |
| AgentLoop.RunLoop | crates/regnmed-agent/src/lib.rs:173-245 | for every model and every tool: at most twelve turns, the log is the opening followed by whole turns, and the ending is decided by the first turn that asks for no tools, or by the wall |
| AgentLoop.EndingInItsCases | crates/regnmed-agent/src/lib.rs:173-245 | after twelve turns the fixed question; before that the model's failure, a refusal of a blank answer, or the answer interpreted - and only when it asks for no tools |
| AgentLoop.EveryResultAnswersItsCall | crates/regnmed-agent/src/lib.rs:206-238 | past the opening every tool result carries the id and the shortened answer of its own call in the nearest request before it, each call answered once |
| Text.TrimTakesTheEnds | crates/regnmed-core/src/csvutil.rs:159-167 | trimming takes white space from both ends of a text and nothing else |
| AgentLoop.TranscriptIsUnique | crates/regnmed-agent/src/lib.rs:196-239 | the log determines its turns: two transcripts of one conversation agree as far as both go |
| AgentLoop.OpeningIsNeverLost | crates/regnmed-agent/src/lib.rs:181-194 | every turn is shown the whole opening |
| RateLimit.RateLimiter.Allow | crates/regnmed-api/src/auth.rs:374-398 | a new integration finds a minute's worth; another finds what was left and what its budget has earned since, capped at a minute's worth and never less than one token's budget; one token is paid or the call refused; other buckets are untouched |
| RateLimit.OneCall | crates/regnmed-api/src/auth.rs:374-398 | after a call tokens lie between zero and the budget, and what was spent came from the old tokens and the refill |
| RateLimit.TokensAreAccountedFor | crates/regnmed-api/src/auth.rs:374-398 | over any stretch, accepted calls plus tokens left are at most one bucketful plus what the clock's forward moves earn; tokens stay between zero and the budget |
| RateLimit.StretchIsBounded | crates/regnmed-api/src/auth.rs:374-398 | from any earlier state and whatever the clock does, accepted calls are at most c plus c per forward minute between the integration's own calls |
| RateLimit.StretchIsBoundedByItsWindow | crates/regnmed-api/src/auth.rs:374-398 | the documented budget c + c * (t - s) / 60 holds whenever the clock's forward moves between the integration's own calls add up to no more than the window, in whatever order the calls came |
| RateLimit.StretchInOrderIsBounded | crates/regnmed-api/src/auth.rs:365-368 | in particular at most c + c * (t - s) / 60 calls are accepted when their instants are in lock order from s to t |
| RateLimit.OthersNeverMatter | crates/regnmed-api/src/auth.rs:384-388 | one integration's answers, in any interleaving with others, are those it would get alone |
| RateLimit.FirstCallsAreAdmitted | crates/regnmed-api/src/auth.rs:404-419 | a new integration's first c calls are all accepted, however fast they come |
| RateLimit.SteadyCallsAreAdmitted | crates/regnmed-api/src/auth.rs:374-398 | calls at least 60 / c seconds apart are never refused after the first |
| RateLimit.AnyNumberGoesThrough | crates/regnmed-api/src/auth.rs:376-385 | for every budget and every window of positive length there are calls within it, out of lock order, of which any given number is accepted |
| RateLimit.WindowIsBoundedIffAnInstant | crates/regnmed-api/src/auth.rs:376-385 | over all calls with instants from s to t, in any order, the documented budget holds if and only if s = t, for every budget |
| CsvUtil.SplitRecord | crates/regnmed-core/src/csvutil.rs:14-43 | the character loop with its peek computes the fields of the record |
| CsvUtil.FieldsOfWrittenRow | crates/regnmed-core/src/csvutil.rs:14-43 | splitting undoes writing for any fields, each quoted as in section 2 of RFC 4180 or bare where that is unambiguous, for any delimiter but the quote |
| CsvUtil.FindColumn | crates/regnmed-core/src/csvutil.rs:70-95 | the two-stage loop returns the first exact header, else the first that contains a candidate, never one with an avoided word |
| CsvUtil.ExactHeaderWins | crates/regnmed-core/src/csvutil.rs:70-95 | the column is the first whose header is a candidate word for word, and only when there is none the first that holds one; a header with an avoided word is never chosen, and nothing is chosen only if no header could be |
| CsvUtil.AmountIsReadBack | crates/regnmed-core/src/csvutil.rs:124-157 | every amount is read back from its Norwegian form with any grouping by spaces or dots, and from its dotted form with any spaces, -0,xx included |
| CsvUtil.DateIsReadBack | crates/regnmed-core/src/csvutil.rs:159-167 | every date is read back from dd.mm.yyyy, yyyy-mm-dd and dd/mm/yyyy, the formats tried in order not getting in each other's way |
| CsvUtil.ShortYearsAreMisread | crates/regnmed-core/src/csvutil.rs:159-167 | every date written with a two-digit year is read by the first format, as a year of the first century: the fourth format never decides and no date from 1970 to 2069 so written is read back |
| CsvUtil.ShortYearWitness | crates/regnmed-core/src/csvutil.rs:159-167 | 10.07.26 is read as the tenth of July of the year 26 |
| CsvUtil.LinesHoldNoBreak | crates/regnmed-core/src/csvutil.rs:175-190 | no line of any text holds a line break |
| CsvUtil.LinesOfFile | crates/regnmed-core/src/csvutil.rs:175-190 | lines without a line break come back from a file with either line ending, but for a carriage return at the end of one that ends in a line feed |
| CsvUtil.LinesComeBackIff | crates/regnmed-core/src/csvutil.rs:175-190 | the lines of a file are the lines written if and only if none holds a line break and none ends in a carriage return the line ending would swallow |
| CsvUtil.ReadHeader | crates/regnmed-core/src/csvutil.rs:169-190 | byte order marks and blank lines passed over, the first line gives the normalised headers and the delimiter - semicolon before tab before comma, semicolon if none - and the rest stays |
| CsvUtil.HeaderIsTheFirstInk | crates/regnmed-core/src/csvutil.rs:169-190 | the header is the first line that is not blank, and the rows are all lines below it |
| CsvUtil.OnlyBomsAreDropped | crates/regnmed-core/src/csvutil.rs:169-175 | the byte order marks at the start are dropped, all of them and nothing else |
| BankCsv.Parse | crates/regnmed-core/src/bankcsv.rs:50-149 | the loop over the lines computes header, layout and rows in order, or the first error; the statement runs from its earliest to its latest transaction |
| BankCsv.LayoutGoesByItsWords | crates/regnmed-core/src/bankcsv.rs:55-98 | which words name and which rule out each column; a header is recognised if and only if it has a date column and an amount column or one for each direction |
| BankCsv.RowInItsCases | crates/regnmed-core/src/bankcsv.rs:103-133 | every row in its cases: passed over without a date or with nothing booked, refused with the text that cannot be read, or the transaction its trimmed cells show, what came in less what went out where there are two columns |
| BankCsv.AllRowsOrNothing | crates/regnmed-core/src/bankcsv.rs:102-134 | a file is read if and only if every physical line that is not blank can be read |
| BankCsv.RowIsReadBack | crates/regnmed-core/src/bankcsv.rs:103-133 | a row that shows a transaction, in the signed column or in the inn/ut columns with or without a minus and with the other column blank or zero, is read as that transaction |
| BankCsv.SeenRowIsReadBack | crates/regnmed-core/src/bankcsv.rs:102-134 | a row of fields, each quoted or bare, is read as the transaction it shows, whatever its line ends with |
| BankCsv.FileIsReadBack | crates/regnmed-core/src/bankcsv.rs:50-149 | for any header that is recognised, either line ending, with or without a byte order mark, fields quoted or bare and none with a line break: the transactions written are the transactions read, between their earliest and latest date |
| BankCsv.OnlyReadableComesOut | crates/regnmed-core/src/bankcsv.rs:102-134 | whatever the file, a transaction that comes out of it has an amount, trimmed texts and no line break in them |
| BankCsv.WrittenFileIsReadBackIff | crates/regnmed-core/src/bankcsv.rs:50-149 | for all transactions, any usable header and either line ending: the file with every field quoted reads back as exactly those transactions if and only if each has an amount, trimmed texts and no line break in them |
| BankCsv.BrokenRowsDisappear | crates/regnmed-core/src/bankcsv.rs:102-112 | where the description is the first column, the transactions whose description holds a line break are lost, all of them and only they, and the file is read without an error |
| BankCsv.BrokenRowWitness | crates/regnmed-core/src/bankcsv.rs:102-112 | one such file, written out: a description on two lines and nothing read |
| BankCsv.LayoutsAgree | crates/regnmed-core/src/bankcsv.rs:69-88 | the same transactions, each one that can come out of a file at all, written in the signed layout and in the inn/ut layout give the same statement |
| BankCsv.SignedHeaderIsRecognised | crates/regnmed-core/src/bankcsv.rs:55-98 | every header with a date, a text, a reference and a signed amount column named by their words is recognised with those columns, whatever else it has |
| BankCsv.SplitHeaderIsRecognised | crates/regnmed-core/src/bankcsv.rs:55-98 | so is every header with separate columns for what came in and what went out and no amount column |
| BankCsv.SignedHeaderWitness | crates/regnmed-core/src/bankcsv.rs:55-98 | one header of the signed kind |
| BankCsv.SplitHeaderWitness | crates/regnmed-core/src/bankcsv.rs:55-98 | one header of the inn/ut kind |
| BankCsv.Earliest | crates/regnmed-core/src/bankcsv.rs:143 | the first date of the statement is a transaction's date and none is before it |
| BankCsv.Latest | crates/regnmed-core/src/bankcsv.rs:144 | the last date of the statement is a transaction's date and none is after it |
| Camt053.ParseAmountRoundTrip | crates/regnmed-core/src/camt053.rs:55-76 | a written amount is read back exactly if and only if it is not negative or is whole; otherwise its øre are added instead of subtracted |
| Camt053.NegativeAmountLosesItsOre | crates/regnmed-core/src/camt053.rs:66-75 | the input that shows it: -1.50 is read as -50 øre |
| Camt053.ShortAmountsAreRead | crates/regnmed-core/src/camt053.rs:55-76 | without decimals there are no øre, and one decimal is tens of them |
| Camt053.LongFractionsAreRefused | crates/regnmed-core/src/camt053.rs:55-76 | more than two decimals are refused, and the error shows the text |
| Camt053.EachStartsAfresh | crates/regnmed-core/src/camt053.rs:95-135 | an entry and a balance start with no amount, no date and no texts, as credits, an entry as booked |
| Camt053.DateTimeIsRead | crates/regnmed-core/src/camt053.rs:78-84 | a date, or a point in time at that date, is read as the date |
| Camt053.Parse | crates/regnmed-core/src/camt053.rs:86-219 | the event loop over path, balance and entry variables computes the state machine's result |
| Camt053.ReadableNeverFails | crates/regnmed-core/src/camt053.rs:115-213 | a document whose amounts and dates are readable never fails |
| CamtStatement.RunsToTheEndIff | crates/regnmed-core/src/camt053.rs:120-126 | from any state, a piece of a document is read to its end if and only if no statement opens in it after one was closed; otherwise the machine stops there |
| CamtStatement.AfterStatement | crates/regnmed-core/src/camt053.rs:120-126 | after the first statement nothing is taken up, whatever the rest holds |
| CamtStatement.DocumentIsItsFirstStatement | crates/regnmed-core/src/camt053.rs:86-219 | a parsed document is its first statement read from that statement's contents, whatever comes before and after; a readable document with a statement is always parsed, one without is refused |
| CamtEntries.FieldInsideEntry | crates/regnmed-core/src/camt053.rs:181-208 | below an entry a text's meaning depends on the path from the entry only; the statement's and balances' patterns never address an entry's fields |
| CamtEntries.InsideEntry | crates/regnmed-core/src/camt053.rs:175-209 | running the machine over an entry's contents is reading the entry from those contents alone, entries in entries included |
| CamtEntries.TransactionsAreTheFirstStatementsEntries | crates/regnmed-core/src/camt053.rs:86-219 | the transactions of every parsed document are what the first statement's entries become, in order, each read from its own contents, nested entries included |
| CamtEntries.PlainEntryIsOneTransaction | crates/regnmed-core/src/camt053.rs:154-169 | an entry without another inside becomes one transaction if booked and dated, signed by its own CdtDbtInd, and nothing otherwise |
| CamtEntries.NothingElseLeaks | crates/regnmed-core/src/camt053.rs:120-173 | documents that agree on the first statement's entries agree on the transactions, whatever else they hold |
| CamtEntries.NestedEntryWipes | crates/regnmed-core/src/camt053.rs:130-135 | in every state, an entry that opens inside another wipes whatever the outer one had read: the run no longer depends on it |
| CamtEntries.NestedEntryIsReadSo | crates/regnmed-core/src/camt053.rs:130-169 | exactly what an entry with another inside becomes, whatever the parts hold: what came before is lost, the inner one becomes what it becomes on its own, and the outer is read from the inner's leftovers and what follows |
| CamtEntries.NestedEntryIsBookedTwiceIff | crates/regnmed-core/src/camt053.rs:130-169 | of two entries, one in the other, both are booked if and only if the inner one is booked and dated and the outer one still is, read from the inner's leftovers and what follows |
| CamtEntries.NestedEntryIsBookedTwice | crates/regnmed-core/src/camt053.rs:154-169 | a booked and dated entry nested in another is booked twice, whatever the outer one said before, unless a status comes after it; with nothing after it, the second time without its texts |
| CamtBalances.FieldInsideBalance | crates/regnmed-core/src/camt053.rs:181-188 | below a balance a text's meaning depends on the path from the balance only |
| CamtBalances.InsideBalance | crates/regnmed-core/src/camt053.rs:175-188 | running the machine over a balance's contents is reading the balance from those contents alone, balances in balances included |
| CamtBalances.BalancesAreTheFirstStatements | crates/regnmed-core/src/camt053.rs:138-153 | opening and closing are the last OPBD and CLBD balances of the first statement, the dates those of its first dated ones, each balance read from its own contents and none outside the statement counted |
| CamtBalances.NestedBalanceWipes | crates/regnmed-core/src/camt053.rs:127-129 | in every state, a balance that opens inside another wipes what the outer one had read |
| CamtBalances.NestedBalanceIsClosedTwice | crates/regnmed-core/src/camt053.rs:127-153 | a balance that ends with another inside counts the inner one twice and itself not at all |
| CamtRoundTrip.EntryIsReadBack | crates/regnmed-core/src/camt053.rs:154-169 | one written entry, from its start to its end, adds the transaction it was written from, with its own sign, if its status is BOOK or absent, and nothing otherwise |
| CamtRoundTrip.BalanceIsReadBack | crates/regnmed-core/src/camt053.rs:138-153 | a written opening or closing balance of either sign sets its amount, and its date where there is none yet |
| CamtRoundTrip.WrittenStatementIsReadBack | crates/regnmed-core/src/camt053.rs:86-219 | for every statement: reading the document written of it succeeds and gives its identification, account, both balances with sign and date, and every booked transaction, in order, with amount, sign, date, description and reference; entries with another status give none |
| CamtRoundTrip.SignAndStatus | crates/regnmed-core/src/camt053.rs:154-169 | among them: a transaction of any amount written as a booked entry comes back with its own sign, and with any other status not at all |
| ChartOfAccounts.SaftFile.ApplyMapping | crates/regnmed-core/src/chart_of_accounts.rs:117-152 | refused exactly when some target is not four digits, naming one such entry and leaving the file as it was; otherwise accounts and lines are rewritten and nothing else |
| ChartOfAccounts.MergeAll | crates/regnmed-core/src/chart_of_accounts.rs:129-145 | the loop with its index computes the merged list |
| ChartOfAccounts.IdsAreFirstAppearances | crates/regnmed-core/src/chart_of_accounts.rs:129-145 | the resulting ids are the targets without repetitions, in order of first appearance |
| ChartOfAccounts.FirstAppearancesMeaning | crates/regnmed-core/src/chart_of_accounts.rs:131-144 | what that list is: the same members, ordered by first position, hence none twice |
| ChartOfAccounts.MergedIdsAreUnique | crates/regnmed-core/src/chart_of_accounts.rs:131-144 | no two resulting accounts share an id |
| ChartOfAccounts.FirstNameIsKept | crates/regnmed-core/src/chart_of_accounts.rs:110-116 | a resulting account has the name of the first account sent to it |
| ChartOfAccounts.OpeningsAreConserved | crates/regnmed-core/src/chart_of_accounts.rs:133-135 | each number's opening is the sum over the accounts sent to it |
| ChartOfAccounts.EntryHoldsItsPreimage | crates/regnmed-core/src/chart_of_accounts.rs:133-135 | a resulting account's own opening is that sum |
| ChartOfAccounts.TotalOpeningIsConserved | crates/regnmed-core/src/chart_of_accounts.rs:129-145 | the openings add up to the same total as before |
| ChartOfAccounts.MovementsAreConserved | crates/regnmed-core/src/chart_of_accounts.rs:147-151 | what moves on an account is what moved on all accounts sent to it, and every transaction keeps its line count and balance |
| Audit.SubledgerCheck | crates/regnmed-core/src/audit.rs:90-170 | the loop collects the findings of every account in order, counts the reskontro accounts and adds up their subledgers; green exactly when there is no finding |
| Audit.RowsCoverTheChart | crates/regnmed-db/src/audit.rs:88-142 | there is a row for exactly the flagged accounts and those that carry a party without being flagged |
| Audit.RowCarriesTheBalance | crates/regnmed-core/src/audit.rs:34-53 | a row's general ledger amount is the account's balance |
| Audit.CheckIsOkIffBooksTieOut | crates/regnmed-core/src/audit.rs:69-170 | green if and only if every entry on a reskontro account carries a party of that kind and no entry on another account carries any |
| Audit.DifferenceIsWithoutParty | crates/regnmed-core/src/audit.rs:34-53 | the difference between an account and its subledger is the sum of its entries without a party |
| Audit.FindingsOnEntries | crates/regnmed-core/src/audit.rs:100-150 | every finding of a row on the entries behind it: counts and signed amounts of what has no party, has the wrong kind, or stands outside the subledger, and when each is raised |
| Audit.FindingsGoByAccount | crates/regnmed-core/src/audit.rs:90-170 | the findings of a check are those of its accounts, in chart order |
| Audit.PartiesAddUpToTheAccount | crates/regnmed-core/src/audit.rs:69-89 | when green, a reskontro account's balance is the sum of its parties' balances on it |
| Audit.PartiesOfAKindAddUpToItsAccounts | crates/regnmed-core/src/audit.rs:69-89 | when green, all customers' balances add up to the customer accounts' balances, and likewise for every kind |
| Budget.Variance | crates/regnmed-core/src/budget.rs:86-155 | the nested loops over sections, lines and months compute the five sections, the two rows of monthly results and the results to date and for the year |
| Budget.OneSectionPerClass | crates/regnmed-core/src/budget.rs:68-74 | the sections are disjoint, and cover classes 3 to 8 and nothing else |
| Budget.EveryAccountHasOneLine | crates/regnmed-core/src/budget.rs:100-119 | every account of classes 3 to 8 with a figure on either side has exactly one line in the report, all others none |
| Budget.SectionLinesAreSorted | crates/regnmed-core/src/budget.rs:120 | a section's lines are sorted by account number and are the lines of its accounts |
| Budget.TextLeIsLexicographic | crates/regnmed-core/src/budget.rs:120 | the order of the lines is by account number, character by character |
| BudgetFigures.LinesOnFigures | crates/regnmed-core/src/budget.rs:100-119 | a line is in a section if and only if it is an account of the section with some figure: its months, its sums to date and for the year, and the variance as actual less budget |
| BudgetFigures.SectionOnFigures | crates/regnmed-core/src/budget.rs:68-130 | every section has its heading, and its figures are sums over the accounts whose numbers start with its digits |
| BudgetFigures.ResultOnFigures | crates/regnmed-core/src/budget.rs:121-155 | the monthly results and the year's are sums over all accounts, income for and costs against, by the first digit |
| Budget.MonthsThenLines | crates/regnmed-core/src/budget.rs:122-129 | adding up months first and lines after, or lines first and months after, gives the same |
| Budget.ResultsAgree | crates/regnmed-core/src/budget.rs:121-155 | monthly results added up to date equal the income section less the four cost sections, for budget, actuals, variance and the full year |
| Budget.ScalingIsExactToHalfAnOre | crates/regnmed-core/src/budget.rs:157-171 | scaling is within half an øre of the exact share, odd in the amount, and changes nothing at zero percent |
| Accrual.PlanListsTheMonths | crates/regnmed-core/src/accrual.rs:58-94 | the plan lists every month from first to last once, in calendar order |
| Accrual.MonthEndIsTheLastDay | crates/regnmed-core/src/accrual.rs:47-56 | the day before the first of the next month is the last day of this one, leap years included |
| Calendar.DayBeforeIsOneLess | crates/regnmed-core/src/accrual.rs:47-56 | the day before a date is one day less by the number of days since a fixed date, leap years included |
| Calendar.BeforeIsLess | crates/regnmed-core/src/accrual.rs:47-56 | dates are ordered as those numbers are |
| Accrual.DatesIncrease | crates/regnmed-core/src/accrual.rs:58-94 | the voucher dates strictly increase |
| Accrual.PlanSumsToTheTotal | crates/regnmed-core/src/accrual.rs:26-45 | the parts add up exactly to the total, of either sign |
| Accrual.PlanInFigures | crates/regnmed-core/src/accrual.rs:26-45 | there is one row per month; each but the last is the total over their number, rounded toward zero, and the last takes what is left |
| Accrual.PartsAreFair | crates/regnmed-core/src/accrual.rs:26-45 | no part has the opposite sign or exceeds the total, and two parts differ by less than the number of months |
| Accrual.PlanNeverOvershoots | crates/regnmed-core/src/accrual.rs:26-45 | what has been taken after any number of months lies between nothing and the total |
| Assets.AssetPlanIsAnAccrualPlan | crates/regnmed-core/src/assets.rs:40-54 | the asset plan is the same split of cost less residual value, and adds up to it |
| Assets.SaldoIsConserved | crates/regnmed-core/src/assets.rs:64-85 | over any years, depreciation and what is left equal what was there and was added less what was sold |
| Assets.YearIsWithinItsBasis | crates/regnmed-core/src/assets.rs:64-85 | the basis is opening and additions less proceeds, the closing the basis less the depreciation; with a rate from nothing to everything, a positive basis gives a depreciation within the basis and rounded to the nearest øre, halves up; any other basis is carried unchanged |
| Currency.NokOreIsHalfAway | crates/regnmed-core/src/currency.rs:25-30 | conversion rounds to the nearest øre, halves away from zero |
| Currency.NokOreIsOdd | crates/regnmed-core/src/currency.rs:25-30 | conversion is odd in the amount |
| Currency.NokOreIsMonotone | crates/regnmed-core/src/currency.rs:25-30 | conversion is monotone in the amount |
| Currency.NokOreIsNearest | crates/regnmed-core/src/currency.rs:25-30 | conversion is within half an øre of exact |
| Currency.RoundedPartsStayNearTheRoundedSum | crates/regnmed-core/src/currency.rs:6-9 | over any n amounts at one rate, the sum of rounded parts and the rounded sum differ by at most (n + 1) / 2 øre |
| Currency.Millionths | crates/regnmed-core/src/currency.rs:60-62 | the scaling loop multiplies by the missing powers of ten |
| Currency.ParseRate | crates/regnmed-core/src/currency.rs:32-65 | the checked arithmetic accepts exactly the positive rates that fit 64 bits |
| Currency.WrittenRateIsRead | crates/regnmed-core/src/currency.rs:32-65 | a rate with one to six decimals, after a dot or a comma, is read as exactly that many millionths, or refused when zero or too large |
| Currency.DecimalsAreRates | crates/regnmed-core/src/currency.rs:32-65 | digits before and after one separator, or before none, are read as a rate: whole numbers and bare decimals too |
| Currency.OnlyDecimalsAreRates | crates/regnmed-core/src/currency.rs:32-65 | nothing is read as a rate but digits and at most six more after one separator, positive and within 64 bits |
| Currency.RateRoundTrip | crates/regnmed-core/src/currency.rs:66-70 | reading a rate undoes writing it, for every positive rate |
| Rounding.HalfAwayIsNearest | crates/regnmed-core/src/budget.rs:161-171 | rounding is at most half a unit off, away from zero at the half |
| Rounding.NearestIsUnique | crates/regnmed-core/src/budget.rs:161-171 | no other multiple is that near: the two bounds define the rounding |

## Left out

- SHA-256: a function parameter; no property of it is assumed.
- XML lexing, attributes, namespaces and indentation: the streams start from well-formed events with raw text. Numeric character references are read as errors; the renderer writes none.
- Ehf.Render: currency, scheme and unit attributes are not in the stream, and depth stands for indentation. What the importer does not read (addresses, contacts, delivery, references, prices, quantities) has no round trip; what is written there is `EhfLeaves.DocumentSays`.
- Ehf.Writer.WriteLeaf: the attributes that some leaves carry are not in the stream.
- chrono: dates are the years 0 to 9999, days and months of two digits, years of four or - day first - of two; one-digit days, other widths and signs, which the library also takes, are not modelled. Month ends are for all integer years.
- 64-bit overflow: amounts are unbounded integers, except in `Currency.ParseRate`, where the checks are modelled. `NokOre` does not model the panic on a result outside 64 bits.
- Floating point: the token bucket's numbers are reals.
- RateLimit.RateLimiter.Allow: the clock and the lock are a parameter and an order of calls; lock poisoning is not modelled.
- CsvUtil.ReadHeader: header normalisation is a parameter; Unicode lower-casing and folding are not modelled.
- BankCsv.Parse: the content hash that becomes the statement reference, and the fixed empty fields of the statement, are not modelled. A row's description comes back trimmed.
- CamtStatement.DocumentIsItsFirstStatement: asked, like what follows from it, of documents whose first statement is read to its end; in the others a statement opens inside it after another was closed there, and the machine stops at that point (`CamtStatement.RunsToTheEndIff`) with what it has by then, which is not described further.
- CamtEntries.TransactionsAreTheFirstStatementsEntries: the same condition.
- CamtEntries.NothingElseLeaks: the same condition, of both documents.
- CamtBalances.BalancesAreTheFirstStatements: the same condition.
- AgentWorker: the trail's guard is taken to be atomic with its insert, and database time to be one clock. Who may be nudged is not restricted: any idle process may pick up any task at any time, which covers the queue's redeliveries and the sweeps. Answers given through the API while a run is at work count as somebody else's.
- AgentLoop.RunLoop: reading the closing markers (`interpret`), the wording of the role prompt and the tool catalogue are parameters or absent.
- ChartOfAccounts: mapping suggestions and name matching are heuristics without a deep property.
- Audit.SubledgerCheck: what is found is modelled, not how it is worded; the other checks of the report are not part of this model.
- Budget: the conversion of ledger signs before the figures reach the report.
- Assets: saldo groups are a table; gain on disposal is one subtraction.
- Handlers, SQL, authentication, mail, queue client, model client, tax and registry clients, portal, cash register and access roles: plumbing, foreign calls, or tables settled by reading.
