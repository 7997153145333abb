# wdxref verification

A Dafny model of wdxref, a service that keeps a cross-reference from Wikidata items to external
identifiers: a store with a reverse index and a changelog, its replication over snapshots and an
event stream, and the ingestion that feeds it. `dafny verify dfyconfig.toml` checks everything.

## What is modelled

- `Text`, `Mappings`: decimal numbers, separated lists, lines, byte order; mapping entries
  `P<id>:<value>` and the canonical JSON array they are stored as.
- `EntityMaps`, `ReverseIndex`, `Store`, `Kvrocks`: the entity map and its replay, the
  comma-joined id lists, the store as a value, and the Lua scripts, pipelines and trimmer as
  methods that edit it in place, proved against the value.
- `StreamIds`, `Stream`, `Wire`, `StreamClient`: stream ids, coverage check and read loop, the
  server-sent-event text, and the client loop that applies events.
- `Snapshot`, `Publisher`, `Replica`, `SnapshotFetch`: snapshot lines, frames and generator, the
  snapshot directory, the download as a machine of single commands, and as the loop it is.
- `Link`, `Chain`, `Completion`, `Progress`: what an upstream promises a replica, a chain of any number
  of stores as one machine with the whole-run theorems, and what must happen once nothing fails.
- `Cuts`, `Damage`, `Torn`: what a connection cut inside a line does, exactly when a store is damaged
  by it, and a run in which nobody notices.
- `Queue`, `Enqueue`, `Ingest`, `Freshness`, `Processor`, `Canonicaliser`, `SeedWriter`, `Download`: the
  pending, processing and failed sets, the event cursor, the two composed, the values that batches
  write, batch processing, canonical mappings, the seed's batch writer, and the resumable dump
  download.

Stream ids are naturals in the store model; `StreamIds` shows that the text `<ms>-<seq>` is
compared by exactly that order. A removed prefix of the changelog is kept as a ghost, so that
"everything appended since the last flush" can be named.

## Hypotheses

The theorems rest on these, and the model states each where it is used.

- Coverage is checked once per request (internal/replicate/stream.go:145) and not again by the
  read loop. While a stream is open, no flush empties its log and no trim passes its cursor:
  `Link.Undisturbs` for the chain, `Stream.Undisturbed` for one request.
  `Stream.ReadContinuesIff` and `Stream.ReadAfterFlushIff` say exactly when a read without it is
  still right.
- A cut stream does not leave something that is taken for a change (`Chain.CleanStream`). A scanner
  hands over the unterminated last line also after a read error
  (internal/replica/client.go:238, 310-313, 370), so an ordinary lost connection can break this.
  `Cuts.CutStreamIff` is exact: the stored cursor stays safe iff nothing is taken, or the entities
  concerned are written again or are already as the event leaves them. `Chain.OrderlyRun` puts this
  and the first hypothesis on the runs of the whole-run theorems.
- A download may break off anywhere. What it takes a beginning of a line for never harms a stored
  checkpoint or cursor; it harms the replica's own index and changelog, and so the replicas below
  it. `Chain.Soundness` says of each node whether it has written only values that decode since its
  last flush, and the theorems ask soundness exactly where it is used: of the upstream for a
  cursor, of the node itself for its index. `Cuts.CleanRunSound`: nodes are sound as long as their
  cuts leave nothing that is taken for an entity (`Snapshot.FragmentTakenIff`);
  `Chain.FlushRestores`: a flush makes any node sound again. An interrupted download flushes unless
  a checkpoint behind the start of the file was stored (internal/replica/client.go:153, 181-185).
  `Damage.DamageIff` gives the exact damage for files with one value for each entity that was cut
  short. A file has two values for an entity that changed while it was scanned and was returned
  twice; writing both can repair the entity (`Damage.TwoValuesRepair`). For every file a sound node
  is valid (`Chain.ChainSafe`).
- The lines are below the limits of the client's scanners, 1 MiB for the stream and 4 MiB for the
  snapshot: part of the exact conditions in `Completion`, `Wire.WireRoundTrip` and
  `Snapshot.GeneratedFileReads`. `Chain.ChainSafe` does not need it.
- Every cleanup of the snapshot directory can read meta.json (`Publisher.PointerRead`);
  `Publisher.CleanupIff` and `Publisher.LosesServed` say what happens otherwise.
- Stream ids keep increasing, also across a flush (`XADD *` uses the clock): `Store.NextId`.
- The scan returns every key that is present all along, each value was current when it was
  returned, duplicates are allowed: `Chain.Complete`, `Chain.AreCurrent`.
- A pipeline whose connection breaks leaves a prefix of its commands applied; a command that is
  answered with an error does not stop the later ones. Nothing assumes atomic pipelines. The methods
  run against a network that decides about every pipeline in advance (`Kvrocks.Server.net`), so that
  a method that fails without a lost or refused pipeline contradicts its contract.
- Crash-safe conservation of the queue needs batches in flight to be disjoint:
  `Queue.NeverOverlaps`. `Queue.OverlapLoses` and `Queue.RetryOverlapLoses` are runs from the empty
  queue that lose an event without it, `Freshness.OverlapStale` is one that keeps an old value;
  `Queue.AckConservesIff` and `Queue.ForgetConservesIff` say exactly when one ack, or the removal of
  one failure record, is harmless.
- A reconnect to the event stream delivers everything after the stored event id, and each event
  carries its own id: `Enqueue.Step`.
- One ETag stands for one content. For snapshots this is proved (`Publisher.NameMeansContent`,
  given that names from the clock do not repeat); for the dump it is assumed (`Download.World`),
  with a server that honours If-Match and Range as in sections 13.1.1 and 14.2 of RFC 9110.
- Compressed frames are modelled by a small codec with the one property resuming rests on:
  concatenated frames decode to concatenated contents (section 3.1 of RFC 8878).

## Where code and comments differ

The model follows the code.

- internal/watcher/wikidata.go:288-290 says duplicates are adjacent after sorting. The sort key
  contains the rank, so a repeat across ranks can survive: `Canonicaliser.RepeatSurvives`, with
  the exact condition in `Canonicaliser.FullyDedupedIff`.
- internal/store/writer.go:591-592 calls the order of the mappings numeric; it is the order of
  the property text.
- internal/replicate/stream.go:250 calls the comparison of stream ids lexicographic; it is numeric.
- internal/watcher/eventstream.go:414-416 says the processing set guarantees crash safety. That
  holds only for batches that do not overlap: `Queue.OverlapLoses`, `Freshness.OverlapStale`.
- internal/replica/client.go:120-123 says an interrupted snapshot download resumes. It does, but
  a download that breaks off inside an entity line can leave that entity without an index and a
  changelog entry for good: `Torn.TornRun`, with the exact condition in `Damage.DamageIff`.
- internal/replicate/snapshot.go:112-114 says the cleanup keeps the file meta.json refers to. When
  meta.json cannot be read, it removes that file as well: `Publisher.LosesServed`.
- internal/watcher/seed.go:218-221 takes an unsatisfiable range for a possible change of the file. The
  same answer comes for an unchanged file when the connection is lost after its last byte:
  `Download.DumpChangedIff`.
- internal/replicate/protocol.go:105-118 classifies a line that starts with a minus sign as
  invalid, although such an entity can be stored and printed: `Snapshot.ItemAcceptedIff`.
- internal/store/reader.go:97-98 says failed entities come oldest first by their first failure.
  The score is renewed with every failure; the queue model takes any of them.

## Model

| member | source | states |
|---|---|---|
| `Chain.ChainSafe` | internal/replica/client.go:73-118 | Whole-run safety for a chain of any length: after every orderly run (any interleaving of writes, flushes, trims, scans, publications, served reads, broken pipelines, refused writes, connections cut inside any line, lines above the limits, seeding deferrals, resets and crashes) every stored checkpoint can be resumed, whatever was cut; below every sound node each stored cursor satisfies "replaying the upstream changelog after it onto the local map gives the upstream map"; and every sound node has a valid store. The primary is always sound, a replica as long as it wrote only values that decode since its last flush. Orderly means Link.Undisturbs and Chain.CleanStream |
| `Chain.ChainConverges` | internal/replica/client.go:443-456 | In every state an orderly run reaches: a node has the primary's entities if the nodes above it are sound and each cursor down to it is the last id of its upstream, also when its own downloads were cut anywhere; if it is sound itself it has the same reverse index text |
| `Chain.LinkConverges` | internal/replica/client.go:432-457 | A replica whose cursor is the last id of a sound upstream's changelog has the same entities, and the same index if it is sound itself |
| `Chain.FlushRestores` | internal/replica/client.go:181-195 | A flush makes any node sound: its store is valid, and everything published or scanned before lies below the new floor |
| `Completion.CoveredCatchesUpIff` | internal/replica/client.go:367-466 | Progress: a replica whose cursor is still covered gets the entities of its upstream, and the index if its own store was sound, after one served and applied event per changelog entry after its cursor, iff the text served for these entries passes the client's 1 MiB scanner; otherwise the connection ends before the first that does not, and the cursor stays before the end |
| `Completion.FetchCompletesIff` | internal/replica/client.go:205-334 | From every state of a fetch whose counter is in order, however it was interrupted before, the rest of the loop stores the position of the done line and exactly the map of all lines applied in order once, iff no line that is left has a negative id or is above the 4 MiB limit, and none replaces a stored value that does not decode |
| `Completion.ResumeCompletesIff` | internal/replica/client.go:127-334 | A resumed download stores its position exactly when its stored entity count belongs to its stored offset, the client can take every line that is left, and none of them replaces a value that an earlier cut left undecodable; then it has the entities of an uninterrupted one. With a torn checkpoint it changes nothing |
| `Progress.Converges` | internal/replica/client.go:73-118 | Whole-link progress, by the single steps of the client: from any idle state without a cursor, whatever earlier attempts left in the store, below a sound upstream that serves a snapshot, one download and one stream connection that nothing disturbs give the replica the entities of its upstream, and the index if its own store was sound, iff the download meets the condition of `SnapshotFetch.Completes` and the text served after it passes the scanner |
| `Progress.DownloadCompletesIff` | internal/replica/client.go:124-334 | A download by single steps, resumed or fresh, from any idle state without a cursor: it ends, and it ends with the position of the served file and exactly its entities iff the condition of `SnapshotFetch.Completes` holds |
| `Progress.PublishesAll` | internal/replicate/snapshot.go:173-294 | A scan that nothing interleaves with is published: its file is the one served from then on, its position is the end of the changelog, and it carries exactly the entities of the store |
| `Link.ScanConverges` | internal/replicate/snapshot.go:173-265 | Snapshot convergence: whatever upserts, deletes and duplicates fell between recording the position and the end of the non-atomic scan, loading what was scanned and replaying the changelog after the recorded position gives the primary's entities |
| `Link.ScanKept` | internal/store/reader.go:268-290 | Every write, flush or trim during a scan keeps its invariant: an entity not written since the recorded position has been returned only with its current value |
| `Link.BehindKept` | internal/store/writer.go:116 | Every step of an upstream keeps a replica exactly one replay behind; a flush leaves its cursor below every later id |
| `Link.StreamKept` | internal/replicate/stream.go:186-223 | Writes, trims that do not pass the server's cursor and, on closed streams, flushes keep the invariant of a stream connection |
| `Link.CaughtUp` | internal/replica/client.go:453 | A safe cursor that is the last id of the changelog means equal entities |
| `Chain.UpstreamKeepsLink` | internal/replicate/stream.go:145-168 | Every undisturbing step of the upstream keeps the cursor, the checkpoint and the client state of its replica safe while it stays sound; a flush of the upstream makes any link below it safe |
| `Chain.ClientKeepsLink` | internal/replica/client.go:73-118 | Every single step of the client, executed, refused or failed command, download cut anywhere, clean stream cut or crash, keeps its stored state safe, whatever the state of its own index and changelog |
| `Chain.RefusedOk` | internal/replica/client.go:222-236 | A refused command: the later commands of its pipeline still run, and what is stored stays safe before and after each of them |
| `Chain.ExecEventOk` | internal/replica/client.go:443-454 | After the entity write of an event and before its cursor is stored, the replica is ahead of its cursor and still safe |
| `Chain.ExecCursorOk` | internal/replica/client.go:453-456 | Storing the cursor of an applied event keeps the link safe |
| `Chain.NodeStepOk` | internal/replicate/snapshot.go:173-294 | Every step of a node keeps its log ordered and its files well formed, and while it is sound its store valid, its published files loadable and its scan sound |
| `Replica.CompletedFetch` | internal/replica/client.go:290-334 | last_replicated_id is stored from a snapshot only after the done line was reached with a matching count, and then the entities are those of all lines applied once |
| `Replica.AcceptsLine` | internal/replica/client.go:238-309 | With the counter in order the client loop refuses a line of a well-formed file only if it has a negative id or is above the limit |
| `Replica.FetchLineOk` | internal/replica/client.go:238-331 | Every turn of the fetch loop keeps the fetch invariant or gives the attempt up |
| `Replica.ResumedOk` | internal/replica/client.go:153-203 | A resumed fetch starts in the invariant at the line of the stored checkpoint, whether or not the stored count fits |
| `Replica.FreshOk` | internal/replica/client.go:181-203 | A fetch on a flushed store starts in the invariant |
| `Replica.FlushOk` | internal/replica/client.go:222-236 | Queueing a batch of 500 keeps every stored checkpoint resumable at every prefix of the pipeline |
| `Replica.CheckpointOk` | internal/replica/client.go:275-288 | Accepting a checkpoint moves the resume point to it, also when only half of its two fields is written |
| `Replica.DoneOk` | internal/replica/client.go:290-300 | The done line is accepted only with the count of all entity lines |
| `Replica.FinishOk` | internal/replica/client.go:320-331 | Every prefix of the final pipeline is safe; the whole of it stores the position of the done line and the number of entity lines as entity_count, and leaves nothing of the progress |
| `Replica.EntityCountIff` | internal/replica/client.go:317-327 | The number of entity lines is the number of entities iff no id repeats in the file, and larger otherwise |
| `Replica.ExecOk` | internal/replica/client.go:222-236 | One executed command keeps the fetch invariant |
| `Replica.DropOk` | internal/replica/client.go:287 | Dropping the rest of a pipeline whose error is ignored keeps the fetch invariant |
| `Replica.CutOk` | internal/replica/client.go:238-318 | Wherever the connection is lost, inside a line included, what is stored stays resumable, whatever the client takes the beginning of the line for |
| `Replica.CutCleanIff` | internal/replica/client.go:247-262 | What a cut leaves to be flushed decodes iff the beginning of the line is not taken for an entity |
| `Replica.FindCheckpoint` | internal/replica/client.go:153-157 | The line a stored byte offset resumes at is the first checkpoint with that offset |
| `SnapshotFetch.FetchSnapshot` | internal/replica/client.go:124-334 | fetchSnapshot as a loop over mutable state, with pipelines that break anywhere and a download that breaks inside any line. Whatever breaks, what is stored can be resumed. A position is stored only with the complete map; it is reported only with entity_count at the number of entity lines and no progress left. If nothing breaks, the position is returned iff the condition of `SnapshotFetch.Completes` holds: fresh, the client can take every line; resumed, the stored count belongs to the stored offset, the client can take the lines that are left, and none replaces a value that does not decode. If only the download breaks, the last checkpoint before the break is stored. From a file of good values the index and the changelog stay right if the cut is clean |
| `SnapshotFetch.ReadLine` | internal/replica/client.go:238-309 | As long as no pipeline is lost, the loop body is exactly one turn of the machine of Replica: it takes the line, or flushes the batch, or gives up; it always keeps the invariant |
| `SnapshotFetch.BeginFetch` | internal/replica/client.go:127-203 | With the same ETag, a positive offset and a count stored, the entities stay, and the attempt goes on at the first checkpoint line of that offset with the stored count. Otherwise it starts at line 0 on a flushed store, unless the flush breaks |
| `SnapshotFetch.ReadFragment` | internal/replica/client.go:238-318 | The input ends at the last line, at a line above the limit, or inside a line, whose beginning is taken, refused or ignored as Replica.CutFetch says; the fetch invariant holds in each case |
| `SnapshotFetch.Complete` | internal/replica/client.go:310-334 | After the input ended: if nothing is lost, the position is returned iff the last batch goes through, nothing was cut and the done line was reached |
| `SnapshotFetch.ExecuteStep` | internal/replica/client.go:222-236 | A pipeline that breaks anywhere leaves a resumable store; one that is not lost runs whole, and fails exactly when one of its commands is refused |
| `Cuts.CutFlushIff` | internal/replica/client.go:238-318 | After what a broken download flushes last, the store is valid iff the beginning of the cut line is not taken for an entity |
| `Cuts.CleanRunSound` | internal/replica/client.go:238-318 | As long as what cut connections leave at the nodes down to k is not taken for an entity or a change, all of them are sound after every orderly run |
| `Damage.DamageIff` | internal/replica/client.go:181-334 | The exact lasting damage, over whole runs of a chain: at the moment a download stores its position, the store is valid iff since the last flush no value cut short was written for an entity the store did not have, as long as the file says one thing of each cut entity |
| `Damage.TwoValuesRepair` | internal/store/writer.go:46-120 | Its hypothesis of one value per cut entity is needed: after a cut value, the empty mappings and then others, the store is valid again |
| `Torn.TornRun` | internal/replica/client.go:153-334 | The run that nobody notices: for every acceptable file with an entity line right behind a later checkpoint and every place inside its mappings, a new replica whose download is lost there resumes, completes, and is then at the end of its upstream's changelog with the same entities and another index |
| `Cuts.TornAtFive` | internal/replicate/protocol.go:105-172 | The shortest case: of 5 ["P1:x"] the beginning 5 [ is taken for an entity whose mappings do not decode |
| `Cuts.CutStreamIff` | internal/replica/client.go:432-463 | A stream that breaks off inside an event leaves the stored cursor safe iff the beginning of the payload is not taken for a change, or the entities of the wrong and of the right change are each written again or already as the event leaves them |
| `Cuts.DeletesAnother` | internal/replicate/protocol.go:259-281 | Of 123 ["P1:x"] the beginning 12 makes the client delete 12 |
| `Snapshot.GeneratedFileReads` | internal/replicate/snapshot.go:194-265 | Generator and reader, for every sequence of texts that fit on a line, decodable or not: the file carries exactly them, every checkpoint counts the entity lines before it, and reading the bytes from its offset gives precisely the lines from it on, iff none of them has a negative id or is above 4 MiB |
| `Snapshot.FileOfOk` | internal/replicate/snapshot.go:194-265 | The generated file is well formed and carries the scanned entities in order |
| `Snapshot.FileIsCut` | internal/replicate/snapshot.go:224-256 | For every scan, the lines of its file: a checkpoint counting j entities exactly once for every multiple j of 10000 below the number of entities and none elsewhere but at the start, so at most 10000 entity lines between two control lines; every entity in its place between them, and the done line last |
| `Snapshot.Generate` | internal/replicate/snapshot.go:173-265 | The generator loop over scan pages writes that file, cut into frames as Snapshot.FileIsCut says, and refuses an empty changelog |
| `Snapshot.EmitItem` | internal/replicate/snapshot.go:224-248 | The loop body takes the step whose result Snapshot.FileIsCut pins: a full frame is closed and a checkpoint with the written offset starts the next one |
| `Snapshot.LineReadsIff` | internal/replicate/protocol.go:121-238 | Parsing gives a printed snapshot line back exactly for non-negative ids, int64 counts and stream ids |
| `Snapshot.FragmentTakenIff` | internal/replicate/protocol.go:105-172 | The beginning of a line is taken for a whole one exactly when it is the digits of an id, a space and at least one character; the entity then has the beginning of its mappings |
| `Snapshot.ItemAcceptedIff` | internal/replicate/protocol.go:105-118 | An entity line is accepted exactly when its id is not negative |
| `Publisher.ServedIsFinished` | internal/replicate/snapshot.go:97-138 | Crash-safe publication: after any file operations with failed removals, errors and crashes between them, what is served is a finished file; once a snapshot was published there is one to serve as long as every cleanup can read meta.json; and a completed cleanup leaves nothing else but what it failed to remove |
| `Publisher.Publishes` | internal/replicate/snapshot.go:258-294 | A publication that nothing interrupts, after any run: the new snapshot is served from then on under its own name, and the other files are untouched |
| `Publisher.CleanupIff` | internal/replicate/snapshot.go:115-138 | Exactly what a completed cleanup leaves: the published file iff meta.json could be read, and what could not be removed |
| `Publisher.LosesIff` | internal/replicate/snapshot.go:97-131 | The only operation that takes the published file away is a removal by a cleanup that could not read meta.json |
| `Publisher.LosesServed` | internal/replicate/snapshot.go:97-131 | A run that publishes one snapshot and then loses it to a cleanup that could not read meta.json |
| `Publisher.NameMeansContent` | internal/replicate/snapshot.go:183-185 | A snapshot name, which is its ETag, stands for one content for ever |
| `Store.ReachableStore` | internal/store/writer.go:41-162 | From an empty store, after any writes, trims and flushes: ids strictly increase; and as long as the written values decode, the changelog since the flush replays to the entities, the index agrees with them, entity_count counts them while nobody overwrites it, and untrimmed the retained log alone replays to them |
| `Store.ApplyValid` | internal/store/writer.go:41-162 | Every command keeps order, replay and index agreement |
| `Store.ApplyTidy` | internal/store/writer.go:41-162 | Whatever text is written, ids stay ordered and only changes that decode are logged |
| `Store.WriteLogs` | internal/store/writer.go:46-51 | A write that changes nothing leaves every structure alone; any other appends exactly its change with a greater id |
| `Store.WriteAt` | internal/store/writer.go:53-159 | Upsert and delete set and remove exactly one entity, also when the script fails on a value that does not decode |
| `Store.WriteValidIff` | internal/store/writer.go:53-97 | A write to a valid store leaves it valid iff its value decodes |
| `Store.TornValueStays` | internal/store/writer.go:46-120 | A value that does not decode does not heal: writing the good value fails once and then counts as unchanged, which leaves the entity unindexed and unlogged |
| `Store.CountKept` | internal/store/writer.go:118-159 | entity_count is the number of entities after every command but an overwrite |
| `Store.NextId` | internal/store/writer.go:116 | A new stream id is greater than every earlier one |
| `Store.TrimCount` | internal/store/writer.go:491-505 | A trim removes at most `limit` entries, all older than minID, and never the last entry |
| `Store.TrimKeepsHistory` | internal/store/writer.go:491-505 | A trim only moves the head: what was removed and what is retained are the history as before |
| `Store.AfterAdvance` | internal/store/reader.go:295-371 | Moving the cursor over the entries just read leaves exactly the rest to read |
| `EntityMaps.ReplayAbsorbs` | internal/replica/client.go:443-456 | A map that already contains a change replays to the same result, as long as the entity is written again |
| `EntityMaps.ReplayAbsorbsAll` | internal/replica/client.go:222-236 | Applying any part of the pending changes early, in any order and number, does not change what replaying all of them gives |
| `EntityMaps.ReplayForgets` | internal/replica/client.go:443-456 | Replay depends on the starting map only where it does not write |
| `EntityMaps.ReplaySameIff` | internal/replica/client.go:443-456 | Replaying onto two maps gives one map iff they agree wherever the changes do not write |
| `ReverseIndex.UpsertAgrees` | internal/store/writer.go:97-114 | After an upsert an id is listed at a (property, value) iff the entity has that entry, whatever repeats the old and new mappings contain; every list is nonempty, sorted and free of repeats |
| `ReverseIndex.DeleteAgrees` | internal/store/writer.go:137-155 | After a delete the id is listed nowhere and nobody else moved |
| `ReverseIndex.ReindexHolds` | internal/store/writer.go:97-114 | The set difference edits exactly the slots of this id |
| `ReverseIndex.AgreesMeans` | internal/store/writer.go:61-95 | Agreement in plain terms: listed at (P, value) iff the mappings contain P<id>:<value> |
| `ReverseIndex.IndexUnique` | internal/store/writer.go:69-78 | The index text is a function of the entities, whatever history led to it |
| `ReverseIndex.AddIdxHolds` | internal/store/writer.go:62-79 | add_idx adds this id to this slot and changes nothing else |
| `ReverseIndex.DelIdxHolds` | internal/store/writer.go:82-95 | del_idx removes this id from this slot, drops an empty slot and changes nothing else |
| `Kvrocks.Server.UpsertScript` | internal/store/writer.go:41-123 | The script with its loops and in-place edits equals the specified upsert for every text, reports a change iff the text differs and an error iff the old or new value does not decode, and keeps the store valid |
| `Kvrocks.Server.DeleteScript` | internal/store/writer.go:130-162 | The delete script equals the specified delete for every stored text, and keeps the store valid |
| `Kvrocks.Server.AddToIndex` | internal/store/writer.go:62-79 | The token loop of add_idx against its specification |
| `Kvrocks.Server.DeleteFromIndex` | internal/store/writer.go:82-95 | The token loop of del_idx against its specification |
| `Kvrocks.Server.RetractAll` | internal/store/writer.go:108-110 | Removing every old entry that is not new |
| `Kvrocks.Server.ExtendAll` | internal/store/writer.go:111-113 | Adding every new entry that is not old |
| `Kvrocks.Server.StreamTrimOlderThan` | internal/store/writer.go:491-505 | The trim by XRANGE and XTRIM MINID, with the number of entries removed |
| `Kvrocks.Server.DrainBacklog` | internal/store/writer.go:450-477 | Trimming while full batches are removed ends, drops only older entries, leaves at most one of them, and never empties the log |
| `Kvrocks.Server.LookupByProperty` | internal/store/reader.go:119-155 | A lookup by the number of a property returns exactly the entities that have the entry with that number in decimal, each once with its mappings |
| `Kvrocks.FoundIff` | internal/store/reader.go:119-155 | An entry is what some lookup asks for iff its property text is the decimal print of its number, and then of that lookup only; others are stored and never found |
| `Kvrocks.Pipe.UpsertEntity` | internal/store/writer.go:254-272 | All entries are checked before anything is queued; a bad one poisons the pipe |
| `Kvrocks.Pipe.UpsertRawEntity` | internal/store/writer.go:235-250 | Queues one upsert of any nonempty text unchecked, or poisons the pipe on a bad id or an empty text |
| `Kvrocks.Pipe.DeleteEntity` | internal/store/writer.go:275-286 | Queues one delete, or poisons the pipe on a bad id |
| `Kvrocks.Pipe.Exec` | internal/store/writer.go:379-393 | A poisoned pipe touches nothing; of a lost one exactly as many commands ran as the network let through; one that is answered runs whole and succeeds iff none of its commands is refused, which does not stop the later ones |
| `Kvrocks.QidRoundTrip` | internal/store/writer.go:622-636 | qidToInt undoes intToQid |
| `Mappings.SlotInjective` | internal/store/writer.go:602-619 | Different entries have different index slots |
| `Mappings.DecodeJson` | internal/store/writer.go:594-600 | Decoding the canonical JSON text gives the entries back |
| `Mappings.RawIsOneLine` | internal/replicate/protocol.go:152-158 | A value that decodes fits on one line of the wire formats |
| `Mappings.TruncatedFails` | internal/store/writer.go:97-103 | A value cut short never decodes |
| `Text.TokensJoin` | internal/store/writer.go:69-78 | Splitting a joined id list gives the list back |
| `Text.SortAppended` | internal/store/writer.go:76-78 | Appending an id to a sorted list and sorting adds exactly it and keeps the list sorted |
| `Text.ParseFormatInt` | internal/replicate/protocol.go:244-281 | int64 decimal printing and parsing undo each other |
| `Text.ScanUnlines` | internal/replica/client.go:367-461 | The scanner gives the lines before the first above its limit, and all of them iff there is none |
| `Stream.CoverageSound` | internal/replicate/stream.go:236-254 | An accepted cursor belongs to the current changelog and every entry appended to it after the cursor is retained |
| `Stream.CoveredIff` | internal/replicate/stream.go:236-254 | A cursor that names an entry of the history is accepted iff that entry is still retained |
| `Stream.CoveredTextIsCovered` | internal/replicate/stream.go:236-254 | The check on text, with its special cases for 0 and 0-0, is the check on positions |
| `Stream.FlushedCursorRejected` | internal/replicate/stream.go:236-254 | A cursor from before a flush is never accepted again, whatever happened since |
| `Stream.CaughtUpStaysCovered` | internal/store/writer.go:450-477 | A caught-up cursor still passes the gap check after any number of trims |
| `Stream.ServedIsOneSlice` | internal/replicate/stream.go:183-223 | While no trim passes the cursor, the chunked loop sends a contiguous in-order run of the log after `since` |
| `Stream.Served` | internal/replicate/stream.go:186-192 | Never more events than the limit |
| `Stream.ReadContinuesIff` | internal/replicate/stream.go:186-223 | The exact hypothesis: a read continues the log after the cursor iff no trim passed the cursor, or nothing is left |
| `Stream.ReadAfterFlushIff` | internal/replicate/stream.go:186-223 | A stream that stays open over a flush is still right for its reader iff each entity is written again in what is retained since, or the reader has it as the store does |
| `Stream.EffectiveLimit` | internal/replicate/stream.go:57-80 | The limit of a request is the smaller of the configured and the requested one, and an error exactly for non-positive or malformed ones |
| `Stream.ServeStream` | internal/replicate/stream.go:57-224 | Bad request (limit or timeout), unavailable, reset and events in exactly their cases; the cursor is the last sent id |
| `Stream.SendReads` | internal/replicate/stream.go:183-223 | The read loop against its specification |
| `StreamIds.CompareIsRankOrder` | internal/replicate/stream.go:259-289 | compareStreamIDs is the order of the naturals on every pair of strings, hence total and transitive |
| `StreamIds.RankIdText` | internal/replicate/stream.go:259-289 | Printing an id and reading it for comparison undo each other |
| `Wire.WireRoundTrip` | internal/replica/client.go:367-463 | For every event sequence and every placement of keepalives the client recovers exactly the ids, qids and mappings of the events before the first with a line above 1 MiB, where its scanner fails; the wire is lossless iff there is none |
| `Wire.ServedFitsIff` | internal/replica/client.go:367-370 | The text served for a run of entries passes the client's scanner iff the id line and the data line of each are below its limit |
| `Wire.CutDelivers` | internal/replica/client.go:370-463 | Cut anywhere, inside a line included, the client has a beginning of the events unless what is left of the last line is taken for a change |
| `Wire.CutPayloadIff` | internal/replica/client.go:432-457 | Cut inside a payload, the client has a beginning of the events iff the beginning of the payload does not parse; otherwise it takes a change that was never made under the id of the event |
| `Wire.PayloadCut` | internal/replicate/protocol.go:259-281 | A beginning of a payload parses exactly when it has a digit and is not the id with only a space, and it never says the change itself |
| `Wire.DataRoundTrip` | internal/replicate/protocol.go:244-281 | FormatStreamChangeData and ParseStreamChangeData undo each other |
| `Wire.EventReceived` | internal/replica/client.go:370-457 | The four lines of an event deliver it whatever came before on the connection |
| `Wire.ResetReceived` | internal/replicate/stream.go:158-166 | A reset delivers no event and reaches the client with its data |
| `StreamClient.EntriesCross` | internal/replica/client.go:367-463 | End to end over the text: the log entries applied are those sent, if every line is below the limit; after a cut anywhere a beginning of them, unless the last line is taken for a change |
| `StreamClient.CursorNeverLeads` | internal/replica/client.go:443-456 | Wherever a pipeline breaks, the stored cursor names the last applied event or the one before it |
| `StreamClient.ConnectStream` | internal/replica/client.go:370-466 | connectStream over any lines. A failure has a cause: the scanner, or the pipeline of one named delivery, lost or refused, after every delivery before it was applied and its cursor stored, or the flush of a reset. If no pipeline is lost and the values are good, every delivered event is applied, the cursor is the id of the last, and the connection ends closed, seeding or flushed as the lines say |
| `StreamClient.TakeEvent` | internal/replica/client.go:432-456 | One event with any mappings is one pipeline: the write, then the cursor. It fails exactly when the pipeline is lost or the write refused |
| `StreamClient.EndWithReset` | internal/replica/client.go:406-430 | A reset keeps the data exactly while the upstream is seeding; otherwise the store is flushed, unless a call is lost |
| `SeedWriter.RetryAbsorbed` | internal/watcher/seed.go:529-556 | However often and wherever a batch broke, once it went through the entities, index and count are those of writing it once, and for distinct entities the changelog gets the same changes in the same order |
| `SeedWriter.FlushBatch` | internal/watcher/seed.go:529-556 | The flush with its five attempts: it succeeds with the first attempt that is not lost, and the batch is then in the store as if written once; it gives up only after five lost ones or a cancelled context, and loses nothing; a malformed record makes every attempt fail without touching the store |
| `SeedWriter.PrefixLog` | internal/watcher/seed.go:542-546 | A prefix of a batch appends exactly the changes among it that are news |
| `Download.ResumedBytes` | internal/watcher/seed.go:167-231 | Under any schedule of short reads, lost connections, refusals and file changes, the bytes returned are the beginning of the version the ETag names, end-of-file comes only after all of it, and at most ten reconnects in a row bring nothing |
| `Download.DumpChangedIff` | internal/watcher/seed.go:215-221 | A resume reports a changed dump exactly when the current version is another one, or when the connection was lost after the very last byte |
| `Download.ResumesIff` | internal/watcher/seed.go:167-231 | A lost connection is made good iff fewer than ten reconnects in a row brought nothing, the backoff is waited out, the version is still the same, the server sends the range, and some of it is left; the new connection then has all the rest |
| `Download.ReadsToTheEnd` | internal/watcher/seed.go:167-181 | Reading any open connection to its end returns the whole version |
| `Download.ResumableBody.ReadSome` | internal/watcher/seed.go:167-181 | Read against its specification, keeping the bytes in step with the version |
| `Download.ResumableBody.Resume` | internal/watcher/seed.go:184-231 | reconnect against its specification |
| `Download.RetryDelay` | internal/watcher/seed.go:65-75 | The backoff loop computes 5 s doubled per retry, capped at 120 s |
| `Queue.CrashSafe` | internal/watcher/eventstream.go:413-543 | While batches in flight do not overlap, after every step of every run, pipelines broken after any command and crashes included, each entity with an unprocessed event is in pending, processing or failed; after a completed recovery in pending or failed |
| `Queue.DrainConserves` | internal/watcher/eventstream.go:413-582 | However batches and retries overlap, an unprocessed entity is in one of the sets, in a batch in flight, in a drain batch that was let go (none without breaks and crashes), or its failure record was removed by a retry too late (none without retries) |
| `Queue.AckConservesIff` | internal/watcher/eventstream.go:516-524 | With retries in flight or not: an ack keeps everything conserved iff every entity of the batch with an unprocessed event that another batch holds or held is in pending or failed as well |
| `Queue.ForgetConservesIff` | internal/watcher/eventstream.go:566-579 | Removing a failure record keeps everything conserved iff the entity has no unprocessed event, or is in pending, or is claimed and not acked |
| `Queue.RetryCompletes` | internal/watcher/eventstream.go:547-582 | A retry that nothing interrupts: what failed again keeps its failure record, the rest loses it and is processed, and no other entity and no other batch is touched |
| `Queue.OverlapLoses` | internal/watcher/eventstream.go:413-491 | A run from the empty queue after which an unprocessed entity is in none of the sets: event, batch, event, second batch, end of the first. A crash now loses the event |
| `Queue.RetryOverlapLoses` | internal/watcher/eventstream.go:547-582 | A run from the empty queue in which a retry removes the record of a newer failure: the event is lost without any crash |
| `Queue.Watcher.DrainQueue` | internal/watcher/eventstream.go:413-491 | The two-deep drain loop, with events arriving and failures retried between any two commands. It ends with nothing in flight and every unprocessed entity in one of the sets, unless its batch was let go or a retry forgot it. If no call fails and the context lives long enough, it drains: pending then holds only what arrived meanwhile, and everything that was pending is out of processing |
| `Queue.Watcher.Turn` | internal/watcher/eventstream.go:436-490 | One turn: claim the next batch while the previous one is settled, with every early return; if no call fails, the previous batch leaves processing, and the loop ends only on an empty queue |
| `Queue.Watcher.HandleBatchResult` | internal/watcher/eventstream.go:496-529 | Requeue on a batch error, otherwise record the failures and ack; when the fetch and the pipeline work, the batch is out of processing |
| `Queue.Watcher.RequeueOnFailure` | internal/watcher/eventstream.go:533-543 | Back to pending first, then out of processing; a pipeline that works moves the whole batch |
| `Queue.Watcher.ClaimPendingBatch` | internal/store/writer.go:509-537 | At most `limit` entities move from pending to processing, fewer only when pending is exhausted; a lost reply may leave them there |
| `Queue.Watcher.Settle` | internal/watcher/eventstream.go:516-526 | A pipeline that breaks after any command keeps every unprocessed entity tracked; when it runs whole, what it acks is out of processing |
| `Enqueue.AtLeastOnce` | internal/watcher/eventstream.go:185-249 | Whenever an event id is stored as last_event_id, it is the id of an event of the stream and that event and every relevant one before it had its entity added to pending, for every schedule of arrivals, ticks, full batches, failures, crashes and reconnects |
| `Enqueue.NeverPastBadTitle` | internal/store/writer.go:305-322 | The cursor never passes an event whose title is no entity id: it poisons its flush on every connection |
| `Enqueue.CursorAdvances` | internal/watcher/eventstream.go:185-249 | The cursor moves on: in every reachable state a live connection has fewer than 1000 titles buffered; an event that arrives is taken, and the connection stays up if its flush is answered and its titles are entity ids; and a tick or the end of the connection so answered leaves nothing buffered, everything taken in pending, and the id of the last event taken stored as last_event_id |
| `Enqueue.BatchWriter.FlushOnce` | internal/watcher/eventstream.go:195-215 | flushOnce with a pipeline that breaks after any command or loses its reply; when it is answered, every title is in pending, the id of the last event taken is stored, and the buffer is empty |
| `Enqueue.BatchWriter.WriteLoop` | internal/watcher/eventstream.go:222-248 | The writer goroutine over one connection keeps the promise of the stored cursor; if no flush fails and the titles are entity ids, everything that came is in pending at the end and the id of the last event is stored |
| `Enqueue.ReaderTakesRelevant` | internal/watcher/eventstream.go:264-327 | The reader takes the title of exactly the messages that have data of which a title can be made, in order, each with its own id, over however many data lines |
| `Ingest.IngestSafe` | internal/watcher/eventstream.go:185-543 | The writer, the queue and the processing composed: whenever an event id is stored as last_event_id, that event and every relevant one before it is processed since it was added, or its entity is in pending, processing or failed, as long as batches do not overlap; otherwise it may also be in a batch in flight, let go or forgotten |
| `Ingest.WriterRuns` | internal/watcher/eventstream.go:185-249 | Nothing the queue does touches the writer: composed with it, the writer is where its own signals bring it, so that its cursor moves on as Enqueue.CursorAdvances says |
| `Freshness.FreshOutside` | internal/watcher/processor.go:42-104 | Following the values into the store: as long as batches do not overlap, after every run of events, claims, retries, fetches, writes, failures, broken pipelines and crashes the store holds of an entity what was fetched after its last event, unless the entity is in pending, processing or failed |
| `Freshness.OverlapStale` | internal/watcher/eventstream.go:434-490 | Without that hypothesis: two batches of the drain loop hold one entity, the older fetch is written last, both are acked in order; the entity is in none of the sets and the store keeps the value from before its last event |
| `Processor.ProcessEntities` | internal/watcher/processor.go:42-104 | On success exactly the absent and unparsable ids are reported, a missing entity is gone, an item has its mappings in canonical form, and no other entity is touched; on failure each has its old or its wanted value; on a valid store it succeeds iff the fetch does, no mapping is malformed and the pipeline, if there is anything to write, is not lost |
| `Processor.BatchReaches` | internal/watcher/processor.go:88-99 | Any part of the batch moves entities only towards their wanted values; upserts before deletes, and repeated ids, make no difference |
| `Processor.SecondTimeQuiet` | internal/watcher/processor.go:88-99 | Processing the same results again changes nothing in any structure, changelog included |
| `Processor.WritableIff` | internal/store/writer.go:254-272 | The batch is poisoned exactly by a result with a malformed mapping |
| `Processor.Queue` | internal/watcher/processor.go:52-95 | The partition loop and the pipeline it fills |
| `Canonicaliser.CanonicalMappings` | internal/watcher/wikidata.go:251-299 | For the claims of any item and every iteration order: the output holds well-formed entries, exactly those that some claim of a property gives, whatever its rank, in the order of property text, rank and value, each (property, rank, value) once, the best rank of a pair always, and each entry at most three times |
| `Canonicaliser.OrderIrrelevant` | internal/watcher/wikidata.go:257-287 | The output depends neither on the iteration order of the map nor on the order of the claims |
| `Canonicaliser.FullyDedupedIff` | internal/watcher/wikidata.go:288-297 | The output is free of repeats exactly when nothing of the same property sorts between two ranks of one pair |
| `Canonicaliser.RepeatSurvives` | internal/watcher/wikidata.go:251-299 | A concrete item whose mappings come out as P1:x, P1:y, P1:x in every iteration order |
| `Canonicaliser.SameClaimsNoChange` | internal/store/writer.go:46-51 | Processing the same claims again, in any order, leaves the store as it is |
| `Canonicaliser.ExtractExternalIds` | internal/watcher/wikidata.go:251-299 | extractExternalIDs with its loops gives the one result every iteration order gives: exactly the entries that some claim gives, in that order |
| `Canonicaliser.PreferredFirst` | internal/watcher/wikidata.go:231-299 | In the output, within a property, the preferred values come first and the deprecated ones last |

## Left out

- HTTP routing, headers, role selection, environment parsing, CORS: wiring without branching properties.
- zstd, gzip and bzip2 themselves, and content negotiation: library codecs.
- The Redis protocol, including the parsing of XREAD replies; only the effect of each command is modelled.
- Time: tickers, sleeps, keepalive intervals, blocking reads, the parsing of durations. They are nondeterministic steps or parameters.
- Cuts between the bytes of one character: a cut line is cut between characters.
- Stored texts that are JSON but not as canonicalMappingsJSON prints them, and arrays with a malformed entry: nothing in the repository writes them. The model lets the scripts fail on them before the index is touched.
- Surrogate pairs in JSON escapes: characters are Unicode scalar values.
- `table.sort` under a locale other than C.
- A lost read of the stored progress: fetchSnapshot then starts over as for another ETag (internal/replica/client.go:130). The model takes the read to succeed.
- The legacy key snapshot_entities_applied, which the fetch reads as a fallback for the resume count.
- Recovery from a torn checkpoint write: the code asks for the same rejected offset until the ETag changes. `Completion.ResumeCompletesIff` says that nothing changes until then; when the ETag changes is left to the upstream.
- The one-hour stream-gap heuristic, dump date lookup, throttling and maxlag tuning: policy constants.
- Loss of power and fsync: crashes are process crashes.
- The aliasing of the reused line buffer and of the reused batch slice: lines and batches are values.
- The failure hash (attempts, error text, timestamps) behind the failed set.
- The 16 MiB buffer and the 4 MiB skip of the dump reader: the seed is modelled from its batches on.
- Kvrocks.Server.DrainBacklog: does not model the changing cutoff of later ticks, because each tick is a drain of its own.
- Enqueue.AtLeastOnce: does not model the deletion of both cursors when the stream does not reach back far enough, because the caller then seeds again.
- Enqueue.ReaderTakesRelevant: does not model the 1 MiB limit of internal/watcher/eventstream.go:261, because a line above it is one more way to lose the connection, which `Enqueue.Step` covers.
- Ingest.IngestSafe: does not follow the fetched values into the store, because `Freshness.FreshOutside` does, for the queue alone.
