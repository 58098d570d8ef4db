# GUARDIANA: what its watcher promises, proved

GUARDIANA watches the names a computer asks for. It keeps a hash-chained extract of them, learns which companies
each program talks to, opens a notice when a program talks to a new one, and can cut it. Around that it says who
asked a name, signals devices that call home, watches camera, startup, privacy and protection, hands its messages to a
page, and points the system's DNS at itself and back.

Almost every part decides from a bounded memory: 64 contacts, 24 hours, an 8-second queue, a table of notices pruned
weekly, a mailbox with caps, a cursor over the extract. This project models those parts and proves that the bounded
memory agrees with the whole history it stands for, that what the tables relate stays related over every run, and that
the encodings can be read back in only one way.

Where the program changes things step by step the model is a class or a method with loops, tied by its `ensures` to a
function of the old state; the laws are then proved of those functions, over all inputs and all runs.

| files | part of the program |
|---|---|
| `Contracts`, `Book`, `Ledger` | living contracts: one contract, the tables and their operations as functions, the same operations step by step |
| `BookInvariant`, `BookKeeps`, `Laws`, `Learning`, `Feeding`, `Counting` | what every operation on those tables keeps, and the laws over runs |
| `Register`, `Preimage` | the two hash chains: what enters them, what is reported |
| `Mailbox`, `Delivery` | the box of messages for the page, and the protocol over answers that may be lost |
| `Findings`, `Notices`, `Watch` | what the watch finds, when it gives a notice, and the four looks |
| `Beacon`, `Volume`, `OffHours` | the three signals of a device |
| `WhoAsked` | which program asked for a name |
| `Calendar`, `Csv` | dates and timestamps, and the exported file with an independent reader |
| `Parking`, `Between`, `Machine` | standing aside: the DNS copy and Home Mode, as a state machine, at every moment of a change, and step by step |
| `Basics` | decimal digits, text order, sets in order |

## What turned out

- The header of the exported file reads back if and only if the separator is in no column's name: a separator such as
  `_` breaks it, because the header is made by replacing commas and is never quoted (`Csv.HeaderReadsBack`).
- In a file for a spreadsheet two fields read back as one exactly when one starts as a formula and the other is it with
  an apostrophe in front (`Csv.SheetTellsApartUnless`).
- A company's count never counts more than the queries read, but undoing a cut or accepting a notice can lower it: the
  notice's entry is written over the contract's. It happens exactly when the contract counts a company of the notice
  higher than the notice does (`Counting.UndoLowersNone`, `Counting.AcceptLowersNone`; inputs in
  `Counting.UndoForgetsTheCount`, `Counting.AcceptForgetsTheCount`). Cutting has the same condition over what it leaves
  uncut (`Counting.CutLowersNone`).
- A cut can cut a site of a company it leaves uncut, one the computer needs too: exactly when a company it does cut has
  that site and it had no cut yet (`Laws.LeftUncutSiteIsCut`, input in `Laws.ExpectedSiteIsCut`).
- The volume signal follows its definition for a history of up to 24 hours; with a longer one the clamped gap forgets
  idle hours (`Volume.LongerHistoryForgets`).
- The queue of heard queries may be asked up to 6 seconds behind its latest cleaning; with any longer lag it can forget
  an answer (`WhoAsked.SixSecondsIsSharp`).
- A notice window longer than a week forgets too soon (`Notices.LongerWindowsForget`).
- Two extract rows whose field is 2^32 bytes or longer can share a preimage (`Preimage.LongFieldsCollide`); below that
  the preimage determines the row.
- Reading a hash from text also takes capitals and a plus sign, so texts that are not what the program writes are taken
  for a hash (`Preimage.HexCanonical`).
- What 1.0.1 switched off is inherited if and only if fewer than 500 changes were recorded after it, and for the DNS if a
  copy can be taken then (`Parking.InheritedWithin500`, `Parking.DnsInheritedWithin500`); what the look misses stays off.
- `dns --restore` with nothing to undo, before the machine has looked at what 1.0.1 left, is not recorded: standing aside
  and coming back then points the machine here again (`Parking.UndoBeforeTheLookIsForgotten`). It is the only step, with
  that look, that can lose a choice about the DNS (`Parking.DnsStep`).
- A crash inside `dns --restore` can leave a machine pointed here with no copy, whenever something pointed here; a crash
  inside `dns --apply` exactly while a change that worked and is not followed is taken back (`Between.UndoIsUncovered`,
  `Between.ApplyIsCovered`). Standing aside and coming back never do (`Between.ParkingIsCovered`).
- The key of a camera or microphone use tells programs apart only up to the case of their letters
  (`Findings.ClaveInjective`). Replaying the findings gives what is remembered to the letter exactly while no use going on
  is given another spelling (`Watch.Base.MiraUsos`, input in `Watch.TwoSpellings`); otherwise it gives it by key.

## Model

| member | source | states |
|---|---|---|
| Laws.OneOpenNotice | crates/core/src/contratos.rs:391-487 | after any run of passes, cuts, accepts, undos and fixes a program has at most one open notice, its pending companies are exactly that notice's, and while learnt or without contract it has neither |
| Laws.AnnouncedOnce | crates/core/src/contratos.rs:1113-1186 | after any run: companies of a resolved notice stay in the contract or cut while there is a contract; no company is in two notices of a program; the register announces each company of a program once |
| Laws.NoticesShowBeforeAndAfter | crates/core/src/contratos.rs:1134-1168 | after any run, what a notice shows as new was in no part of what it shows as before, its times are in order, and it carries a resolution time exactly when resolved |
| Laws.CutPartitions | crates/core/src/contratos.rs:1204-1274 | a cut splits a notice's companies into the cut and the left uncut; the cut are neither expected nor shared, each left one is left for the reason recorded, and the contract gets each on its side |
| Laws.CutSitesAreCut | crates/core/src/contratos.rs:1233-1256 | every recorded site of a company that was cut ends with an active cut of this computer, made now or before |
| Laws.CutHarmsNobody | crates/core/src/contratos.rs:1207-1232 | a rule a cut makes is an active cut of this computer, for a recorded site of a company that is not expected, and for no site in another program's contract |
| Laws.LeftUncutSiteIsCut | crates/core/src/contratos.rs:1207-1240 | a site of a company a cut leaves uncut gets one of its rules if and only if a company of the notice that is cut has the site and it had no active cut |
| Laws.CutSparesTheUncut | crates/core/src/contratos.rs:1207-1240 | so a cut makes no rule on a site of any company it leaves uncut if and only if no company it cuts shares one without a cut |
| Laws.ExpectedSiteIsCut | crates/core/src/contratos.rs:1207-1240 | tables that satisfy the invariant where a company is left uncut because the computer needs it and its only site is cut |
| Laws.CutThenUndoIsAccept | crates/core/src/contratos.rs:1315-1373 | cutting and then undoing leaves the same companies, pending and cut sets as accepting, in every program, and the rules of before, with none of the cut's ever active again |
| Laws.PatternsChosen | crates/core/src/contratos.rs:1233-1240 | the patterns of a cut are exactly the sites, without an active cut, of the companies that are cut |
| Laws.UndoneRange | crates/core/src/contratos.rs:1353-1355 | undoing a cut's rules changes none numbered before them and undoes each of them |
| Laws.EmptyTables | crates/core/src/contratos.rs:677-680 | the empty tables satisfy the invariant, so every run from the start does |
| BookKeeps.RunKeeps | crates/core/src/contratos.rs:908-1078 | every run keeps the tables' invariant: contracts, notices, pending sets and register together |
| BookKeeps.StepKeeps | crates/core/src/contratos.rs:908-1414 | each operation by itself keeps it |
| BookKeeps.PassKeeps | crates/core/src/contratos.rs:908-1025 | a whole pass keeps it, whatever the reader, the clock and the order of the table walked |
| BookKeeps.ObservedKeeps | crates/core/src/contratos.rs:446-485 | reading one query and applying its effects keeps it |
| BookKeeps.NewCompanyKeeps | crates/core/src/contratos.rs:1134-1184 | announcing a company (opening a notice or adding to the open one, and pruning old ones) keeps it |
| BookKeeps.RelearnKeeps | crates/core/src/contratos.rs:1033-1078 | learning again keeps it: the open notices that go take nothing unsettled with them |
| BookKeeps.CutKeeps | crates/core/src/contratos.rs:1190-1291 | a cut of an open notice keeps it |
| BookKeeps.AcceptKeeps | crates/core/src/contratos.rs:1315-1343 | accepting keeps it |
| BookKeeps.UndoKeeps | crates/core/src/contratos.rs:1346-1373 | undoing keeps it |
| BookKeeps.FixKeeps | crates/core/src/contratos.rs:1377-1414 | fixing or letting go keeps it |
| BookInvariant.ConEmpresaGoesOn | crates/core/src/contratos.rs:446-485 | a query either leaves what is settled settled and nothing new pending, or makes exactly one company pending that was in no part of the contract |
| BookInvariant.PruningKeeps | crates/core/src/contratos.rs:768-775 | dropping old resolved notices breaks nothing |
| Book.OldestResolvedGo | crates/core/src/contratos.rs:768-775 | pruning takes no open notice, and every one it takes goes before every resolved one that stays |
| Book.PrunedCount | crates/core/src/contratos.rs:768-775 | pruning takes as many resolved notices as asked, or all there are |
| Learning.LearningIsSound | crates/core/src/contratos.rs:373-388 | over any run: no contract comes back from «without»; the register only grows; a watched contract never fixed shows seven days, or more than one with ten launches, from no earlier than the start of the learning |
| Learning.LearntFromTheStart | crates/core/src/contratos.rs:373-388 | from empty tables: watched and fixed contracts say when they were learnt, and one never fixed had seven days by then, or over one with ten launches |
| Learning.PassEndsLearning | crates/core/src/contratos.rs:1000-1006 | after a pass that walks every contract none is still learnt past its time, were its program quiet or not |
| Learning.FirstPassRelearns | crates/core/src/contratos.rs:1033-1078 | what the first pass leaves of each contract: ours without contract; a settled one learning from that pass on with every company it had; a fixed one as it was |
| Feeding.EachRowOnce | crates/core/src/contratos.rs:908-1025 | in any run, the rows read and the rows still to read are, in order, all the eligible rows since the cursor: each once, none skipped, whatever the batches |
| Feeding.PassReads | crates/core/src/contratos.rs:922-1025 | a pass reads its batch from the cursor on and leaves the cursor at the batch's last row |
| Feeding.EligibleRows | crates/core/src/contratos.rs:926-935 | the rows a pass may read are exactly this computer's rows with a program past the cursor, in increasing order |
| Feeding.LastPassLeavesNone | crates/core/src/contratos.rs:926-935 | a pass leaves nothing to read if and only if it found no more than one batch |
| Contracts.FoldedCompany | crates/core/src/contratos.rs:155-168 | a company folded from queries counts them all; its names and sites are theirs, bounded by 12 and 8 and complete below that; its last time is theirs; it is expected iff one of them was |
| Counting.EntriesFoldTheRun | crates/core/src/contratos.rs:391-487 | over any run from the empty tables: what a contract or a notice holds of a company is the fold of some of the queries read of that program and company, in order and none twice, so it never counts more than were read |
| Counting.FoldOfSome | crates/core/src/contratos.rs:155-168 | which queries those are: their places, in increasing order |
| Counting.RunFolds | crates/core/src/contratos.rs:908-1414 | each operation adds to what an entry folds only queries read since |
| Counting.AcceptLowersNone | crates/core/src/contratos.rs:1315-1343 | accepting lowers no count if and only if the contract counts no company of the notice higher than the notice does |
| Counting.UndoLowersNone | crates/core/src/contratos.rs:1346-1373 | undoing a cut, the same |
| Counting.CutLowersNone | crates/core/src/contratos.rs:1259-1274 | a cut, the same over the companies it leaves uncut |
| Counting.UndoForgetsTheCount | crates/core/src/contratos.rs:1357-1360 | tables, for every count above one, whose undo puts the count back to one |
| Counting.AcceptForgetsTheCount | crates/core/src/contratos.rs:1323-1326 | the same for accepting |
| Contracts.ContratoVivo.RevisaAprendizaje | crates/core/src/contratos.rs:373-388 | ends the learning exactly when its time has come |
| Contracts.ContratoVivo.LeeArchivo | crates/core/src/contratos.rs:407-418 | keeps what Windows said of the file, and what it did not say as it was |
| Contracts.ContratoVivo.LeeVersion | crates/core/src/contratos.rs:426-437 | the versions seen, never growing past 20, and the contract's own while learnt without one |
| Contracts.ContratoVivo.LeeLanzamiento | crates/core/src/contratos.rs:438-444 | counts a launch for a process not among those kept, never growing past 16 |
| Contracts.ContratoVivo.CambiaVersion | crates/core/src/contratos.rs:402-425 | a version change only when both sides are known and differ |
| Contracts.ContratoVivo.LeeProceso | crates/core/src/contratos.rs:393-445 | all that a query says of the program itself |
| Contracts.ContratoVivo.Incorpora | crates/core/src/contratos.rs:468-475 | our own sites join quietly |
| Contracts.ContratoVivo.Aprende | crates/core/src/contratos.rs:453-466 | a company learnt, or no contract past 60 |
| Contracts.ContratoVivo.LeeEmpresa | crates/core/src/contratos.rs:446-485 | where a company goes by the state of the contract, and the notice it raises |
| Contracts.ContratoVivo.ObservaConsulta | crates/core/src/contratos.rs:391-487 | the whole step of one query, in its order, and its effects |
| Ledger.LibroVivo.RegistraContrato | crates/core/src/contratos.rs:785-820 | adds one row, by what it says, after the rows there are and touches nothing else; how it is chained is Register.Registro.Registra |
| Ledger.LibroVivo.GuardaAvisoNuevo | crates/core/src/contratos.rs:759-782 | a new notice takes the next number; too many, and the oldest resolved ones go |
| Ledger.LibroVivo.ApuntaNovedad | crates/core/src/contratos.rs:1134-1168 | a new company goes to the program's last open notice, or opens one |
| Ledger.LibroVivo.AplicaUnEfecto | crates/core/src/contratos.rs:1113-1186 | what each effect writes to the tables |
| Ledger.LibroVivo.AplicaLosEfectos | crates/core/src/contratos.rs:994-998 | all of a query's effects, in order |
| Ledger.LibroVivo.CortaSitios | crates/core/src/contratos.rs:1233-1256 | one rule for each site without an active cut, with its number |
| Ledger.LibroVivo.CortaUna | crates/core/src/contratos.rs:1207-1257 | one company cut, or left uncut and why |
| Ledger.LibroVivo.CortaEmpresas | crates/core/src/contratos.rs:1206-1258 | the walk over a notice's companies makes the rules of all of them and sorts every one |
| Ledger.LibroVivo.CortaAviso | crates/core/src/contratos.rs:1190-1291 | the whole cut of a notice over the tables, and how many rules it made |
| Ledger.LibroVivo.ContratoCortar | crates/core/src/contratos.rs:1295-1312 | cuts an open notice; anything else is left alone |
| Ledger.LibroVivo.ContratoAceptar | crates/core/src/contratos.rs:1315-1343 | accepts an open notice; anything else is left alone |
| Ledger.LibroVivo.DeshaceReglas | crates/core/src/contratos.rs:1353-1355 | undoes the notice's rules one after another |
| Ledger.LibroVivo.ContratoDeshacer | crates/core/src/contratos.rs:1346-1373 | undoes a cut; anything else is left alone |
| Ledger.LibroVivo.ContratoFijar | crates/core/src/contratos.rs:1377-1414 | fixes or lets go; nothing changes when the state would not |
| Ledger.LibroVivo.BorraAvisos | crates/core/src/contratos.rs:1042-1053 | the deleted notices' companies join where there was none, the earlier notice first |
| Ledger.LibroVivo.ReaprendeContrato | crates/core/src/contratos.rs:1034-1076 | one contract learnt again, or ours without contract |
| Ledger.LibroVivo.ReaprendeTodo | crates/core/src/contratos.rs:1033-1078 | all of them, by identity |
| Ledger.LibroVivo.Asegura | crates/core/src/contratos.rs:960-984 | the contract of a program just seen, unless there are 400 |
| Ledger.LibroVivo.LeeFila | crates/core/src/contratos.rs:947-999 | one row of the extract read into the contracts held and the tables, and every contract it changes marked |
| Ledger.LibroVivo.LeeFilas | crates/core/src/contratos.rs:940-999 | a batch of them |
| Ledger.LibroVivo.TerminaAprendizajes | crates/core/src/contratos.rs:1000-1006 | programs that went quiet finish their learning |
| Ledger.LibroVivo.CortaAbiertos | crates/core/src/contratos.rs:1014-1017 | a fixed contract's open notices cut, the earlier first |
| Ledger.LibroVivo.CortaFijados | crates/core/src/contratos.rs:1007-1018 | listing the fixed contracts first and then cutting is the same as looking at each in turn |
| Ledger.LibroVivo.GuardaTocados | crates/core/src/contratos.rs:1019-1024 | storing only the contracts that were marked stores all the pass changed |
| Ledger.LibroVivo.ContratosPasada | crates/core/src/contratos.rs:908-1025 | the pass over the tables is the pass the laws are about |
| Register.Registro.Registra | crates/core/src/contratos.rs:785-820 | a row chained to the one before; the register still verifies with one row more; fails only on a head that is not a hash |
| Register.Registro.Comprueba | crates/core/src/contratos.rs:857-903 | the walk gives the verdict of the definition: rows read and where it first fails |
| Register.TamperingIsReported | crates/core/src/contratos.rs:857-903 | with head and count kept, rows that verify are the rows written, unless two of their own preimages collide: altered, removed, inserted or reordered rows are reported |
| Register.SameEndSameRows | crates/core/src/contratos.rs:881-893 | two chains of one length that end in one hash are the same rows, or two of their preimages collide |
| Register.HeadIsNeeded | crates/core/src/contratos.rs:894-902 | without head and count a register cut short still verifies |
| Register.WalkAppend | crates/core/src/contratos.rs:881-893 | walking two stretches of rows is walking the first and, if it is whole, the second from its end |
| Register.FilaInjective | crates/core/src/contratos.rs:649-664 | from a register preimage one recovers the previous hash and the five fields |
| Register.ChainsNeverConfused | crates/core/src/contratos.rs:649-664 | no register preimage is an extract preimage |
| Preimage.ChainHash | crates/core/src/hash.rs:140-183 | feeding the hasher field by field hashes exactly the preimage of the row |
| Preimage.Feed | crates/core/src/hash.rs:145-161 | each field goes in with its length in front |
| Preimage.RowRoundTrip | crates/core/src/hash.rs:140-183 | from the preimage one recovers the previous hash and every field, the optional ones and the empty ones included, for fields below 2^32 bytes |
| Preimage.RowInjective | crates/core/src/hash.rs:140-183 | two rows with one preimage are one row |
| Preimage.OlderRowsEncodeAsBefore | crates/core/src/hash.rs:162-178 | rows without program, server or disguise encode as the older forms of 11, 12 and 13 fields |
| Preimage.LongFieldsCollide | crates/core/src/hash.rs:158-161 | two different rows with a field of 2^32 bytes that share a preimage |
| Preimage.FieldsRoundTrip | crates/core/src/hash.rs:158-161 | length-prefixed fields read back |
| Preimage.DecimalRoundTrip | crates/core/src/hash.rs:143-144 | a number's text reads back |
| Preimage.ParseHex | crates/core/src/hash.rs:43-54 | the parser's loop is the definition: 64 characters, each pair a byte |
| Preimage.HexRoundTrip | crates/core/src/hash.rs:34-54 | the text of a hash reads back |
| Preimage.HexCanonical | crates/core/src/hash.rs:43-54 | a text read as a hash is that hash's text if and only if it is in lower-case digits |
| Delivery.ExactlyOnceInOrder | crates/cli/src/comunicaciones_cmd.rs:386-437 | whatever answers are lost, what a page received since it said it was ready is a strictly increasing run of the messages published since, each as published, and every number before the one it asks from was received or evicted by the caps |
| Delivery.ReplacedGetsNothingNew | crates/cli/src/comunicaciones_cmd.rs:370-437 | a replaced page never gets a message published after the takeover |
| Delivery.AnswersMakeProgress | crates/cli/src/comunicaciones_cmd.rs:410-437 | an answer to a page with messages waiting holds at least one and moves it on |
| Delivery.WokenWhenPublished | crates/cli/src/comunicaciones_cmd.rs:774-789 | whoever was told there is nothing is woken exactly when something was published since |
| Delivery.OnlyTheLastReadyPage | crates/cli/src/comunicaciones_cmd.rs:360-383 | after any run, a request that does not say ready is taken if and only if no page ever said it, or the last one that did is asking |
| Delivery.NothingEvictedUnderCaps | crates/cli/src/comunicaciones_cmd.rs:399-403 | below both caps nothing is lost |
| Delivery.RunKeeps | crates/cli/src/comunicaciones_cmd.rs:360-437 | every run of publications, takeovers, requests, arrivals and losses keeps the protocol's invariant |
| Delivery.StepKeeps | crates/cli/src/comunicaciones_cmd.rs:360-437 | each step keeps it |
| Delivery.AnswerHolds | crates/cli/src/comunicaciones_cmd.rs:415-436 | an answer holds messages as published, from where the page was, without gaps but the evicted |
| Delivery.PublicadaKeeps | crates/cli/src/comunicaciones_cmd.rs:386-407 | after a publication the box is a suffix of all that was published |
| Mailbox.Buzon.NuevaPagina | crates/cli/src/comunicaciones_cmd.rs:370-383 | a page takes over: what waited goes, numbers go on |
| Mailbox.Buzon.Publica | crates/cli/src/comunicaciones_cmd.rs:386-407 | numbers the messages, trims to the caps but for the last, and raises the number watched |
| Mailbox.Buzon.Recoge | crates/cli/src/comunicaciones_cmd.rs:410-437 | lets go what was read and answers with what fits, always one |
| Mailbox.RecortadaKeeps | crates/cli/src/comunicaciones_cmd.rs:399-403 | trimming takes only from the front, ends within the caps or at one message, and takes nothing below them |
| Mailbox.LeidaKeeps | crates/cli/src/comunicaciones_cmd.rs:416-421 | letting go takes exactly what was read |
| Watch.Base.MiraUsos | crates/apps/src/vigilancia.rs:611-756 | its findings are exactly the short uses, the starts and the ends of the look; replaying all of them so far gives the uses now remembered by key, and to the letter if and only if no use going on changed its spelling |
| Watch.TwoSpellings | crates/apps/src/vigilancia.rs:669-756 | two looks at one use written in two spellings: no finding, and another spelling remembered |
| Watch.Base.LeeBreve | crates/apps/src/vigilancia.rs:636-668 | a use is short exactly when it began after the last look and ended |
| Watch.Base.LeeUsos | crates/apps/src/vigilancia.rs:617-668 | the uses going on and the short ones of one look |
| Watch.Base.Empiezan | crates/apps/src/vigilancia.rs:669-719 | the starts found replay to the uses there were and the new ones |
| Watch.Terminan | crates/apps/src/vigilancia.rs:720-749 | the ends found replay to the uses without exactly those that are gone |
| Watch.Base.MiraPrivacidad | crates/apps/src/vigilancia.rs:896-960 | exactly the known settings that changed have a finding each, they link each «after» to the next «before» and end at the stored value; what was not given stays |
| Watch.Base.LeeAjuste | crates/apps/src/vigilancia.rs:921-957 | a finding exactly when a known setting changed |
| Watch.Base.LeeAjustes | crates/apps/src/vigilancia.rs:921-958 | every setting given is stored and no other changes, and exactly the known ones that changed are told |
| Watch.Base.MiraProteccion | crates/apps/src/vigilancia.rs:963-1040 | replaying the starts and returns found gives the conditions now remembered, and the last word on each fact is the stored one |
| Watch.Base.Alertas | crates/apps/src/vigilancia.rs:1006-1018 | a start for exactly the conditions that were not there |
| Watch.HechosNuevos | crates/apps/src/vigilancia.rs:968-1005 | exactly the facts that are new or changed are told, with their value |
| Watch.Vuelven | crates/apps/src/vigilancia.rs:1019-1033 | a return for exactly the conditions that are gone |
| Watch.Base.MiraArranque | crates/apps/src/vigilancia.rs:760-892 | at most three notices however many entries appeared, none on the first look; every entry new to the memory and no other is told as new; an entry is told as gone exactly when it was there, is not, could be read and does not go by design; what cannot be read stays |
| Watch.Base.LeeArranque | crates/apps/src/vigilancia.rs:768-793 | exactly the entries of the list that were not remembered, each once; and every one of the list remembered as there |
| Watch.Base.AvisaNuevos | crates/apps/src/vigilancia.rs:811-849 | one summary notice when more than three could be noticed, else one each at most |
| Watch.Base.MarcaIdos | crates/apps/src/vigilancia.rs:850-876 | every entry that was there, is not and could be read is marked and told, without notice; those that run once are marked and not told; nothing else changes |
| Watch.Olvida | crates/apps/src/vigilancia.rs:877-890 | the entries forgotten are gone ones, the oldest seen, and no more than the excess |
| Watch.Base.Avisa | crates/apps/src/vigilancia.rs:596-607 | prunes the week-old and decides by the window |
| Watch.FactsStayTrue | crates/apps/src/vigilancia.rs:966-1034 | after one look the last word on every fact is what is stored |
| Watch.ReplayFromSame | crates/apps/src/vigilancia.rs:669-750 | a replay looks at keys alone |
| Notices.PrunedDecidesAsTheLog | crates/apps/src/vigilancia.rs:596-607 | for windows of at most a week and a clock that does not go back, the pruned table decides every call as the full log of notices would |
| Notices.NoticesKeepApart | crates/apps/src/vigilancia.rs:596-607 | two notices with one key are at least the window apart |
| Notices.LongerWindowsForget | crates/apps/src/vigilancia.rs:597-597 | with any longer window the table gives a notice the log would not |
| Notices.TableSummarises | crates/apps/src/vigilancia.rs:596-607 | the table holds the last notice of each key of the last week |
| Findings.ClaveInjective | crates/apps/src/vigilancia.rs:569-576 | the key of a use tells resource and start apart, and the program up to letter case |
| Findings.SameKeysSameUses | crates/apps/src/vigilancia.rs:569-576 | tables of uses with the same keys hold the same resource, start and program but for case |
| Findings.AttentionIsNotDoubled | crates/apps/src/vigilancia.rs:1108-1135 | one cause is told once, and an antivirus standing aside for one that is on is not off |
| Findings.AttentionSaysWhatIsOff | crates/apps/src/vigilancia.rs:1108-1135 | each condition holds exactly when: real time is off and Defender in charge; no antivirus is on and it is not that; the profile is off and no other firewall is on |
| Findings.FactsAreTheProducts | crates/apps/src/vigilancia.rs:1085-1102 | each antivirus and each other firewall is a fact with its own last state, whatever the names of the others |
| Beacon.WindowIsLastContacts | crates/classify/src/signals.rs:102-130 | for any clock, what a name never dropped keeps is the last 64 contacts of everything ever asked of it |
| Beacon.AnswerIsOfTheHistory | crates/classify/src/signals.rs:102-130 | one query answers what the whole series, folded into contacts, answers |
| Beacon.FoldIsContact | crates/classify/src/signals.rs:109-119 | folding one more query is what the independent fold of the series does |
| Beacon.MedianOfContacts | crates/classify/src/signals.rs:188-213 | contacts are at least two seconds apart, so no median of them is zero or less |
| Beacon.PeriodIsRegular | crates/classify/src/signals.rs:216-237 | a period is the rounded median of contacts whose span is within the tolerance of that many medians |
| Beacon.PeriodicIsReported | crates/classify/src/signals.rs:216-237 | an exactly periodic, long enough window among those tried always gives a period |
| Beacon.PeriodOfSomeWindow | crates/classify/src/signals.rs:120-129 | the period answered is that of a window tried |
| Beacon.Names.Ask | crates/classify/src/signals.rs:102-130 | one query over the table of names: the new table and the answer |
| Beacon.TryWindows | crates/classify/src/signals.rs:120-129 | the first window with a period, longest first |
| Beacon.Trim | crates/classify/src/signals.rs:117-119 | pops to the last 64 |
| Beacon.ContactIntervals | crates/classify/src/signals.rs:195-207 | the intervals between contacts, in increasing order |
| Volume.HoursAreTheHistogram | crates/classify/src/signals.rs:141-160 | with a history of at most 24 and times that do not go back, the completed hours are the last of the true histogram since the first query, idle hours and the clamped gap included |
| Volume.VolumeIsItsDefinition | crates/classify/src/signals.rs:141-181 | the signal fires exactly when, over the full history, at least three of the last hours were active and the current one is above the limit on their median |
| Volume.LongerHistoryForgets | crates/classify/src/signals.rs:145-155 | for every history above 24 a series whose idle hours are forgotten |
| Volume.Device.Query | crates/classify/src/signals.rs:141-181 | one query: the new hours and whether it fires |
| OffHours.AtMost23Firings | crates/classify/src/signals.rs:60-78 | from a fresh profile at most 23 firings in any run |
| OffHours.FiringsFillSlots | crates/classify/src/signals.rs:66-78 | each firing fills an hour that never empties |
| OffHours.TotalIsSum | crates/classify/src/signals.rs:70-78 | the total is the sum of the 24 counts until one saturates |
| OffHours.HoursProfile.OffHours | crates/classify/src/signals.rs:133-138 | judges first and then counts the query in its hour |
| OffHours.HourOfDay | crates/classify/src/signals.rs:54-56 | the hour is one of 24, before 1970 too |
| WhoAsked.Sesion.QuienPidio | crates/apps/src/ventanas.rs:97-119 | the short queue answers as everything ever heard would, unless its cap took out a query or the question is over 6 s behind an earlier one |
| WhoAsked.Sesion.Limpiar | crates/apps/src/ventanas.rs:123-137 | cleaning takes only from the front, and says when the cap took what was not too old |
| WhoAsked.Sesion.Descarta | crates/apps/src/ventanas.rs:123-137 | the popping loop |
| WhoAsked.Sesion.Anota | crates/apps/src/ventanas.rs:187-198 | a heard query joins the cleaned queue at the end |
| WhoAsked.Busca | crates/apps/src/ventanas.rs:107-118 | the walk with the best so far finds the nearest in time, the first heard among equals |
| WhoAsked.AnswerIsUnique | crates/apps/src/ventanas.rs:107-118 | a question has one answer |
| WhoAsked.ForgettingIsHarmless | crates/apps/src/ventanas.rs:123-137 | forgetting what cannot match changes no answer |
| WhoAsked.OneNameHoweverWritten | crates/apps/src/ventanas.rs:98-98 | final dots make no other name, and the form compared has no capitals, no final dot and is its own form |
| WhoAsked.SixSecondsIsSharp | crates/apps/src/ventanas.rs:123-137 | for every lag over 6 s a queue that forgets the answer its history gives |
| Calendar.CivilAnchor | crates/core/src/time.rs:23-40 | day 0 is 1970-01-01 |
| Calendar.CivilSuccessor | crates/core/src/time.rs:23-40 | every day count, negative too, is a date of the calendar, and the next one is the next date by leap years and month lengths |
| Calendar.CivilInverse | crates/core/src/time.rs:23-40 | counting days in that calendar gives the day count back |
| Calendar.CivilMonotone | crates/core/src/time.rs:23-40 | later days are later dates |
| Calendar.Rfc3339RoundTrip | crates/core/src/time.rs:51-59 | an independent reader of section 5.6 of RFC 3339 gets the same millisecond back, for years 0 to 9999 |
| Calendar.Rfc3339SortsAsTime | crates/core/src/time.rs:51-59 | over those years the texts sort exactly as the times |
| Calendar.StartOfDayIsFirst | crates/core/src/time.rs:115-118 | an instant has the same day text exactly from it up to a day later, in any year |
| Calendar.DayTextInjective | crates/core/src/time.rs:44-48 | two dates with one text are one date, in any year |
| Csv.WriteCsv | crates/core/src/export.rs:56-144 | the loop writes the mark, the header and every record |
| Csv.WriteHeader | crates/core/src/export.rs:64-72 | replacing the commas of the fixed header joins the columns with the separator |
| Csv.WithExtra | crates/core/src/export.rs:68-71 | each extra column after its separator, quoted |
| Csv.WriteLine | crates/core/src/export.rs:136-141 | a record is its fields quoted and joined |
| Csv.FieldReadsBack | crates/core/src/export.rs:147-162 | any field, whatever it holds, reads back |
| Csv.RecordReadsBack | crates/core/src/export.rs:136-141 | any record reads back and leaves what follows |
| Csv.BodyReadsBack | crates/core/src/export.rs:73-142 | a reader of section 2 of RFC 4180 gets every record and field back, for any separator but quote and line feed |
| Csv.FileReadsBack | crates/core/src/export.rs:56-144 | the whole file reads back, its byte order mark skipped, when no column's name holds the separator |
| Csv.HeaderReadsBack | crates/core/src/export.rs:64-72 | the fixed header reads back if and only if no column's name holds the separator |
| Csv.NoFormulaInASheet | crates/core/src/export.rs:147-162 | no field read back from a spreadsheet's file starts as a formula, and each is the one written, or that after one apostrophe |
| Csv.SheetTellsApartUnless | crates/core/src/export.rs:147-162 | two different fields read back as one if and only if one starts as a formula and the other is it after an apostrophe |
| Parking.HomeStep | crates/cli/src/engine.rs:1107-1341 | a step keeps Home Mode on or parked exactly when last chosen on, if and only if it is not the first look missing a change of the licence past the last 500; only the person changes the choice |
| Parking.DnsStep | crates/cli/src/dns_cmd.rs:225-386 | a step keeps the DNS change in force or parked exactly when last chosen, and a way back, if and only if it is neither that look, past 500 or without a copy to take, nor an undo of nothing before it |
| Parking.LookKeepsHome | crates/cli/src/engine.rs:1194-1227 | the first look at what 1.0.1 left keeps the choice about Home Mode if and only if it finds the licence's change, and never parks what was not wanted |
| Parking.LookKeepsDns | crates/cli/src/engine.rs:1194-1242 | the same for the DNS, and when it can take a copy |
| Parking.HomeOverRuns | crates/cli/src/engine.rs:1107-1341 | over any run that loses no choice, machines of 1.0.1 included: Home Mode is on or parked exactly when last chosen on |
| Parking.DnsOverRuns | crates/cli/src/engine.rs:1107-1341 | over any such run, with every success or failure of the system's calls, the DNS is as last chosen and can be put back |
| Parking.WayBackOverRuns | crates/cli/src/engine.rs:983-1341 | over every run: a machine pointed at the guardian has a copy, and no copy leads back to the guardian |
| Parking.RunKeeps | crates/cli/src/engine.rs:1107-1341 | a machine with nothing of 1.0.1 to inherit loses no choice in any run |
| Parking.NeverAfterOff | crates/cli/src/hogar_cmd.rs:177-202 | after `off`, no stand-downs and returns bring Home Mode back, on a machine of 1.0.1 too |
| Parking.OffStaysOff | crates/cli/src/engine.rs:1171-1341 | while Home Mode is chosen off, nothing the program does alone turns it on or parks it |
| Parking.NeverAfterRestore | crates/cli/src/dns_cmd.rs:335-386 | after an undo that worked the engine never points the machine here until asked, unless there was nothing to undo and the look at what 1.0.1 left is still to come |
| Parking.UndoneStaysUndone | crates/cli/src/engine.rs:1107-1341 | while the DNS change is undone by choice, nothing the program does alone points the machine here |
| Parking.UndoBeforeTheLookIsForgotten | crates/cli/src/dns_cmd.rs:335-345 | in that case, on every machine whose licence's change is among the last 500, three steps of the engine point it here against the choice |
| Parking.EngineChoosesNothing | crates/cli/src/engine.rs:1171-1341 | the engine never changes what the person chose, and keeps it while no step loses it |
| Parking.BackAsChosen | crates/cli/src/engine.rs:1285-1341 | with the licence back, Home Mode is on and the copy is there exactly when chosen, after any number of stand-downs |
| Parking.WhatWasLeftComesBack | crates/cli/src/engine.rs:1194-1341 | a machine left standing aside by 1.0.1, whose look finds both changes, has both parked, and whatever the engine then does the licence brings both back |
| Parking.InheritedWithin500 | crates/cli/src/engine.rs:1206-1227 | what 1.0.1 switched off of Home Mode is inherited if and only if fewer than 500 changes of other kinds came after |
| Parking.DnsInheritedWithin500 | crates/cli/src/engine.rs:1206-1242 | the DNS it gave back is parked if and only if fewer than 500 changes came after and a copy can be taken |
| Between.ParkingIsCovered | crates/cli/src/engine.rs:1252-1341 | at every moment of standing aside and coming back a machine pointed here has a stored copy, and a copy stored or parked |
| Between.EngineIsCovered | crates/cli/src/engine.rs:1107-1159 | so it has while the DNS is given back on silence and pointed here again |
| Between.CopyGrowsFirst | crates/cli/src/engine.rs:2498-2515 | a copy that grows is stored before the change it covers |
| Between.ApplyIsCovered | crates/cli/src/dns_cmd.rs:225-333 | `dns --apply` stores its copy before anything changes; a machine pointed here has one at every moment if and only if no change that worked is taken back for not being followed |
| Between.UnfollowedIsUncovered | crates/cli/src/dns_cmd.rs:287-299 | taking such a change back clears the copy first: when the machine is uncovered, and that it ends covered |
| Between.UndoIsUncovered | crates/cli/src/dns_cmd.rs:335-386 | `dns --restore` clears the copy first: a machine pointed here has one at every moment if and only if nothing points here; it ends covered |
| Machine.Maquina.LastChange | crates/cli/src/engine.rs:1206-1221 | the newest change of some classes among the last 500 |
| Machine.Maquina.Heredar | crates/cli/src/engine.rs:1194-1242 | looks once, parks what the licence had switched off, and keeps the choices exactly as the laws of that look say |
| Machine.Maquina.DevolverDns | crates/cli/src/engine.rs:1252-1282 | undoes, then parks, then clears, in that order; keeps the copy when undoing failed and something still points here |
| Machine.Maquina.StandDown | crates/cli/src/engine.rs:1171-1184 | the whole stand-down, its moments in order, and the choices kept |
| Machine.Maquina.Volver | crates/cli/src/engine.rs:1285-1341 | the return with the licence: a fresh copy when there is one before the parked one goes, Home Mode as parked, and the choices kept |
| Machine.Maquina.DevolverPorSilencio | crates/cli/src/engine.rs:1107-1129 | gives back without dropping the copy, and keeps the choices |
| Machine.Maquina.VolverConArriba | crates/cli/src/engine.rs:1133-1159 | points here again when an upstream answers, and keeps the choices |
| Machine.Maquina.ReapplyIfDropped | crates/cli/src/engine.rs:2478-2497 | the minute's watch points here again what was dropped, and keeps the choices |
| Machine.Maquina.Reapuntar | crates/cli/src/engine.rs:2498-2515 | stores the copy that grew, and only then points here |
| Machine.Maquina.GiveBackWhileStopped | crates/cli/src/engine.rs:983-1011 | on stopping, the copy stays for the next start |
| Machine.Maquina.DnsApply | crates/cli/src/dns_cmd.rs:225-333 | passes through the moments of that change in order, its copy first, and every way out keeps the choices |
| Machine.Maquina.RollBack | crates/cli/src/dns_cmd.rs:264-286 | a failed change is undone; the copy goes only when undoing worked or nothing changed |
| Machine.Maquina.UndoUnreached | crates/cli/src/dns_cmd.rs:287-299 | clears the copy, undoes, and stores it back if undoing failed, in that order |
| Machine.Maquina.DnsRestore | crates/cli/src/dns_cmd.rs:335-386 | clears, undoes, then stores back or clears what was parked, in that order; keeps the choices but for the undo of nothing before the first look |
| Machine.Maquina.UndoByHand | crates/cli/src/dns_cmd.rs:346-386 | that undo when there is a copy |
| Machine.Maquina.TurnHomeOn | crates/cli/src/hogar_cmd.rs:124-175 | on only where it may be, and the choices kept |
| Machine.Maquina.TurnHomeOff | crates/cli/src/hogar_cmd.rs:177-202 | off clears what was parked too, and the choices are kept |

## Left out

What enters as a parameter, and what holds for every value of it:

- How a query's name gives company and site, the identity of a program, why a program has no contract and which sites
  are GUARDIANA's own are functions of a `Lector` record; `clave_de`, `parece_version` and the tables of names behind
  them are not modelled.
- SHA-256 is an arbitrary function to 32 bytes. Where an injective hash would be needed the theorem names the collision
  among the rows at hand instead.
- The order in which a hash table of contracts is walked is a parameter of a pass. Sets and maps kept in order are walked
  through `Basics.Sorted` where the order matters to the result; the loops of `Watch` leave it open.
- Clocks, processes running, readable accounts, every success or failure of a system call, the licence and the network
  are parameters of each step.

What is simpler than the program:

- Tables are maps and sequences; SQL, JSON and settings as text are not modelled, and writing to storage succeeds. A
  contract in a table is a value, as it is stored; it is an object only while a query changes it.
- Timestamps and counts are unbounded integers except where the program saturates; adding two timestamps near the ends
  of 64 bits is not modelled.
- Lower case is ASCII; a name's other letters are as given.
- Among resolved notices that began at one time, pruning takes the one with the smaller number first; SQL leaves that open.
- The details a register row writes are kept as what happened and to which notice or company, not as text; the other
  program named in a company left uncut is not recorded.
- Which of the queries read an entry folds is told as some of them in order: which ones a full notice, an undo or an
  accept leaves out is not.
- A notice's two versions are carried as the program writes them; no law is about them.
- Whether a startup entry belongs to the system is a field of the entry, and whether its account can be read is a parameter.
- New interfaces added to a DNS copy are taken as not pointing at the guardian.
- Rows of the exported file are given as fields; which column holds what is not modelled.
- Watch.Base.MiraArranque: a finding says which entry it is of and whether it gives a notice; its text is not modelled.
- Csv.FileReadsBack: the separator may not be the quote or the line feed; a carriage return is read back too, since the reader ends records at a line feed alone.

What is not modelled at all:

- The extract's retention and pruning, `local_day`, `escoger_arriba` and the minute counters, restoring the DNS from the
  plain file beside a damaged extract, the lock around DNS changes, the caches of paths and file hashes in `ventanas.rs`,
  `write_json`.
- Deleting everything about contracts, half-failed passes, and two processes at once.
- HTTP, cookies, keys, texts and translations, terminal and panel, and every call to Windows, macOS or Linux.
