# Verified models of the control repository's hard logic

A Dafny 4.11 model of the parts of the repository in which state, loops or agreements between separately
written programs carry the risk, with proofs of what those parts promise. `dafny verify dfyconfig.toml` checks
everything.

- **The one-time approval gate** (`ApprovalCore`, `HighImpactRequest`, `SignedApproval`, `RuntimeAudit`,
  `RuntimeReader`, `PretoolGate`, `GateProtocol`, `GateSafety`, `GateLog`, `GateProgress`, `GatePaths`, `GateRun`):
  evaluation of an approval, the ledger with its two unique columns, the append-only audit log and its reader, and a
  state machine in which any number of gate processes interleave, fail and crash between any two steps. A schedule is a
  sequence of (process, action) pairs; the theorems quantify over all of them, and the imperative `main` is one of them.
- **The indentation parser** (`YamlSubset`, `YamlRoundTrip`, `YamlText`): the recursive-descent block parser as written,
  a printer, the round trip from file text to file text and the conservation of entries.
- **RAG corpus admission to retrieval** (`Keyed`, `RagCorpus`, `RagRetrieval`): five chained checkers and the one
  statement about every returned chunk.
- **Checklist import and generation** (`ChecklistTable`, `ChecklistImport`, `ChecklistProperties`, `ChecklistFiles`,
  `Spreadsheet`, `Workbook`, `SlsaViews`): reconciliation, redaction, counting and the digests that tie documents to
  files; the spreadsheet writer against the reader; two views of SLSA Build L2 computed independently.
- **SLSA evidence, adapter to assessor** (`SlsaContract`, `SlsaAdapter`, `SlsaAssessor`, `SlsaComposition`,
  `SlsaVerdict`): composition across the JSON contract, the meaning of PASS, monotonicity, and the arithmetic of
  truncated times.
- **Smaller loops** (`SitfCoverage`, `CommentScanner`, `WorkflowPins`, `DualControl`).
- `Wrappers`, `PyStrings`, `StableSort`, `Json`, `Keyed` and `Times` hold what the programs share: results, Python's
  string and sorting primitives, JSON values under Python's `==`, dictionaries by key, and freshness.

Loops of the source are methods proved against specification functions or predicates; theorems are lemmas about those.
Uninterpreted functions stand for digests, signature checks, regular expressions that are not spelled out, time parsing
and files; where a result needs two digests not to collide, or a printer to be faithful, its precondition says so.

Six properties one might expect turned out to hold only under a condition, and are proved with it:

- a written table is read back exactly when no cell contains a carriage return, which the writer keeps and XML
  line-end normalization rewrites, when it is within the caps on rows and columns, and when the workbook is within the
  importer's limits of 20 MiB compressed and 50 MiB uncompressed, which tables within the caps can exceed;
- what an organization withholds stays out of the generated rows, but not out of the documents: the status document
  carries the number of withheld reconciliations and the digests of the three whole files, and every profile row the
  digest of the source file; beyond these nothing about them shows;
- a mapping survives printing and parsing exactly when none of its keys and texts contains a line end;
- evidence can be accepted although it is stale, or observed after the assessment, by less than a second, because both
  times are truncated;
- a SITF profile can pass validation and still make the renderer raise, exactly when an identifier is padded, because
  validation strips identifiers and rendering does not;
- authorization against the ledger agrees with the offline replay lists exactly when the request names an actor and an
  agent, which the evaluation itself does not demand; normalized requests always do.

## Model

| member | source | states |
|---|---|---|
| `GateSafety.SingleUse` | controls/ai-development-security/ai-coding-agent-runtime-hardening/scripts/signed_approval.py:228-291 | In every state reachable by any schedule of any number of gate processes, with faults and crashes between steps, and with each process trusting its own signers, two commits never share an approval, a digest or a process |
| `GateSafety.LedgerIsHistory` | controls/ai-development-security/ai-coding-agent-runtime-hardening/scripts/signed_approval.py:228-291 | In every reachable state the ledger is exactly the rows committed so far, in order, and neither of its two unique columns repeats |
| `GateSafety.GrantedOnce` | controls/ai-development-security/ai-coding-agent-runtime-hardening/scripts/signed_approval.py:294-349 | Two printed grants come from different processes, name different approvals and different digests, and concern different bound requests |
| `GateSafety.AllowIsEarned` | controls/ai-development-security/ai-coding-agent-runtime-hardening/scripts/pretool-gate.py:299-377 | An allow printed for a high-impact event was preceded by the commit of a row keyed by the digest of that very request, and then by a completed allow audit event with the same reference; the row is still in the ledger |
| `GateSafety.FailureIsFinal` | controls/ai-development-security/ai-coding-agent-runtime-hardening/scripts/pretool-gate.py:337-377 | A process that fails or crashes after consuming an approval prints nothing under any later schedule, and the approval stays consumed |
| `GateSafety.OnlyFinalVerdicts` | controls/ai-development-security/ai-coding-agent-runtime-hardening/scripts/pretool-gate.py:197-209 | No process ever prints the undecided verdict, so the `ask` output is never produced by the main path |
| `GateSafety.ExitStatus` | controls/ai-development-security/ai-coding-agent-runtime-hardening/scripts/pretool-gate.py:277-377 | Under any schedule a process has exit status 0 exactly when it has printed a decision, 1 exactly when at some step an exception left its handler, and 2 exactly when it is over, was not killed, printed nothing and let no exception out |
| `GateSafety.CommitRows` | controls/ai-development-security/ai-coding-agent-runtime-hardening/scripts/pretool-gate.py:240-257 | Every committed row is the one the run's own evaluation offered, and its digest is that of the run's own normalized request |
| `GateSafety.ReachableIsSafe` | controls/ai-development-security/ai-coding-agent-runtime-hardening/scripts/pretool-gate.py:277-377 | The inductive invariant behind these results holds in every reachable state: what each process has earned at its phase, and what each observation was entitled to |
| `GateProtocol.LedgerAlways` | controls/ai-development-security/ai-coding-agent-runtime-hardening/scripts/signed_approval.py:228-291 | From any consistent state, under any schedule, the ledger and the history only grow and stay consistent |
| `GateLog.OneWriter` | controls/ai-development-security/ai-coding-agent-runtime-hardening/scripts/runtime_audit.py:184-210 | At no time are two processes inside the locked append |
| `GateLog.LogIsFaithful` | controls/ai-development-security/ai-coding-agent-runtime-hardening/scripts/runtime_audit.py:183-210 | Under every schedule the log only grows, stays within the size limit, holds every recorded event whole, and reads back as exactly the completed events in lock order if and only if no append stopped inside its line |
| `GateLog.LogAlways` | controls/ai-development-security/ai-coding-agent-runtime-hardening/scripts/runtime_audit.py:140-210 | The lock, size and record invariants of the shared log survive every schedule, and earlier text is never altered |
| `GateLog.ReachableLogPasses` | controls/ai-development-security/ai-coding-agent-runtime-hardening/scripts/verify-runtime-state.py:176-288 | In every reachable state without a torn line, with known providers and fresh events, the file reads back as the completed events, each passes the assessment's tests as a JSON object, and the log is complete exactly when every required decision has been recorded |
| `GateProgress.UnhinderedRunIsGranted` | controls/ai-development-security/ai-coding-agent-runtime-hardening/scripts/pretool-gate.py:299-343 | Left alone, with a free log and an unused valid approval, a run commits its row, records the allow and prints it: the safety results are not vacuous |
| `GateRun.RunHook` | controls/ai-development-security/ai-coding-agent-runtime-hardening/scripts/pretool-gate.py:277-377 | One call over the real ledger and log objects, together with a schedule of one new process of the protocol that has the same effect: same ledger, same log, the phase of the exit status, and the print last; a printed decision is backed by its whole audit line, a printed high-impact allow by its own new ledger row |
| `GateRun.HandleError` | controls/ai-development-security/ai-coding-agent-runtime-hardening/scripts/pretool-gate.py:344-377 | The exception handler: status 1 exactly when the error record escapes it, otherwise 2, with the log and the phase of the matching schedule |
| `GateRun.DecideCall` | controls/ai-development-security/ai-coding-agent-runtime-hardening/scripts/pretool-gate.py:299-322 | The concluded decision for every behaviour of the store: never undecided, a high-impact allow only with its row committed; the ledger grows by that row exactly when the transaction commits |
| `GateRun.AuthorizeHighImpact` | controls/ai-development-security/ai-coding-agent-runtime-hardening/scripts/pretool-gate.py:212-274 | The ledger afterwards and the decision, for missing, refused, replayed, granted and failing cases |
| `GateRun.RecordEvent` | controls/ai-development-security/ai-coding-agent-runtime-hardening/scripts/runtime_audit.py:222-245 | The log grows by a prefix of the event's line, all of it on success, nothing when the event cannot be built or does not fit |
| `PretoolGate.AllowedExactly` | controls/ai-development-security/ai-coding-agent-runtime-hardening/scripts/pretool-gate.py:127-194 | Without approval the gate allows exactly a reviewed tool marked allow that is read-only, or a bounded write whose constraints the arguments meet |
| `PretoolGate.ApprovalRequiredExactly` | controls/ai-development-security/ai-coding-agent-runtime-hardening/scripts/pretool-gate.py:175-189 | A bound approval is demanded exactly for a reviewed high-impact tool whose action class the policy knows |
| `PretoolGate.ConsumeIsBound` | controls/ai-development-security/ai-coding-agent-runtime-hardening/scripts/signed_approval.py:310-339 | A row is offered to the ledger only for the digest of the run's own request, with its actor, action class, time and the envelope's own approval identifier, and with the offline evaluation passing behind it |
| `SignedApproval.LedgerRefinesReplayLists` | controls/ai-development-security/ai-coding-agent-runtime-hardening/scripts/signed_approval.py:310-349 | Against any ledger, authorization with empty replay lists is allowed exactly when the signature holds, the simple evaluation passes with the ledger's two columns as replay lists, and the request names an actor and an agent |
| `SignedApproval.AgentlessStillPasses` | controls/ai-development-security/ai-coding-agent-runtime-hardening/scripts/signed_approval.py:310-349 | Why the agent matters: from any request that passes offline, blanking the agent and issuing the same approval for the result gives one that still passes offline and cannot be authorized |
| `SignedApproval.NamelessPasses` | controls/ai-development-security/ai-coding-agent-runtime-hardening/scripts/signed_approval.py:310-349 | A concrete policy, request and approval: the request names no agent, passes offline, and authorizing it is an error |
| `HighImpactRequest.NormalizedRefines` | controls/ai-development-security/ai-coding-agent-runtime-hardening/scripts/signed_approval.py:366-465 | For requests the hook itself normalizes the refinement holds with no side condition |
| `SignedApproval.SecondUseIsReplayed` | controls/ai-development-security/ai-coding-agent-runtime-hardening/scripts/signed_approval.py:266-286 | After a grant, another authorization of the same approval or the same digest is answered as replayed and leaves the ledger alone, however much it has grown |
| `SignedApproval.OnlyReplayDiffers` | controls/ai-development-security/ai-coding-agent-runtime-hardening/scripts/approval_core.py:259-280 | Evaluations with empty and with full replay lists agree on everything except the replay verdict |
| `SignedApproval.InsertKeepsDistinct` | controls/ai-development-security/ai-coding-agent-runtime-hardening/scripts/signed_approval.py:247-282 | Appending a row keeps both columns free of repetitions exactly when the row conflicts with none |
| `SignedApproval.Ledger.constructor` | controls/ai-development-security/ai-coding-agent-runtime-hardening/scripts/signed_approval.py:247-258 | A new ledger is empty |
| `SignedApproval.Ledger.ConsumeOnce` | controls/ai-development-security/ai-coding-agent-runtime-hardening/scripts/signed_approval.py:228-291 | True exactly when neither column holds the new values; the rows afterwards for a working store, a rollback, and an error reported after the commit |
| `SignedApproval.Ledger.AuthorizeAndConsume` | controls/ai-development-security/ai-coding-agent-runtime-hardening/scripts/signed_approval.py:294-349 | Result and ledger equal the specified settlement of the prepared outcome, for every behaviour of the store |
| `HighImpactRequest.NormalizeRequest` | controls/ai-development-security/ai-coding-agent-runtime-hardening/scripts/signed_approval.py:366-465 | The builder returns the specified request, with its identifier taken from its own digest, or refuses |
| `HighImpactRequest.IdentifierNotBound` | controls/ai-development-security/ai-coding-agent-runtime-hardening/scripts/signed_approval.py:463-465 | Filling in the request identifier does not change what the digest binds |
| `HighImpactRequest.NormalizedIsConsumable` | controls/ai-development-security/ai-coding-agent-runtime-hardening/scripts/signed_approval.py:426-465 | A normalized request always has actor, agent and digest, so authorizing it never fails for want of them |
| `HighImpactRequest.SameDigestSameAction` | controls/ai-development-security/ai-coding-agent-runtime-hardening/scripts/signed_approval.py:427-465 | Unless the two payloads collide, equal digests mean the same actor, agent, policy revision, repository, branches, title, body and idempotency key, even under two different runtime policies |
| `ApprovalCore.CanonicalRequestDigest` | controls/ai-development-security/ai-coding-agent-runtime-hardening/scripts/approval_core.py:118-128 | The digest of exactly the nine binding fields, or an error when one is missing or target or parameters are not objects |
| `ApprovalCore.DigestBinds` | controls/ai-development-security/ai-coding-agent-runtime-hardening/scripts/approval_core.py:118-128 | Unless the two payloads collide, requests with equal digests agree on every binding field |
| `ApprovalCore.ActionClassIndex` | controls/ai-development-security/ai-coding-agent-runtime-hardening/scripts/approval_core.py:131-167 | Succeeds exactly for complete, well-formed classes in which no pair occurs twice, and then files every pair under its class |
| `ApprovalCore.LookupIsExact` | controls/ai-development-security/ai-coding-agent-runtime-hardening/scripts/approval_core.py:131-175 | A lookup in the index finds a pair's class, and only its class |
| `ApprovalCore.ClassifyAction` | controls/ai-development-security/ai-coding-agent-runtime-hardening/scripts/approval_core.py:170-175 | Classified exactly when the declared class lists the request's tool and operation |
| `ApprovalCore.Evaluate` | controls/ai-development-security/ai-coding-agent-runtime-hardening/scripts/approval_core.py:196-280 | The evaluation as written meets its specification: when it raises, and each of its five verdicts |
| `RuntimeAudit.BuiltEventPasses` | controls/ai-development-security/ai-coding-agent-runtime-hardening/scripts/runtime_audit.py:76-137 | A built event passes the reader's per-event test exactly when its provider is one of the two known ones |
| `RuntimeAudit.ReferencesIdentify` | controls/ai-development-security/ai-coding-agent-runtime-hardening/scripts/runtime_audit.py:94-135 | Redaction keeps identity: unless digests collide, two built events carry the same session, event and approval references exactly when the hidden identifiers are the same or equally absent |
| `RuntimeAudit.BuiltLogPasses` | controls/ai-development-security/ai-coding-agent-runtime-hardening/scripts/verify-runtime-state.py:235-263 | A log of built and fresh events passes every per-event test, with no decision outside the required ones |
| `RuntimeReader.AuditMatches` | controls/ai-development-security/ai-coding-agent-runtime-hardening/scripts/verify-runtime-state.py:201-288 | On any JSON objects: an answer exactly when state, policy, time and every timestamp can be judged and every provider up to the first failing event can be looked up; accepted exactly when every event passes and is fresh, the decisions seen are the required ones, and ownership, modes, retention and export are sound |
| `RuntimeReader.ShapeSurvives` | controls/ai-development-security/ai-coding-agent-runtime-hardening/scripts/verify-runtime-state.py:235-258 | The JSON object of an event passes the assessment's tests exactly when the event has the right shape |
| `RuntimeReader.GateLogAccepted` | controls/ai-development-security/ai-coding-agent-runtime-hardening/scripts/verify-runtime-state.py:201-288 | A log of fresh events that the gate built is readable and passes every test, and is complete exactly when each required decision occurs in it |
| `RuntimeAudit.AuditFile.constructor` | controls/ai-development-security/ai-coding-agent-runtime-hardening/scripts/runtime_audit.py:163-173 | A new log is empty |
| `RuntimeAudit.AuditFile.Append` | controls/ai-development-security/ai-coding-agent-runtime-hardening/scripts/runtime_audit.py:183-210 | Whatever each short write answers, the file is its old text plus a prefix of the line, the whole line on success, and nothing when the size limit is reached |
| `RuntimeAudit.LogReadsBack` | controls/ai-development-security/ai-coding-agent-runtime-hardening/scripts/verify-runtime-state.py:176-192 | Line by line the log is the completed events in lock order if and only if no append stopped inside its line |
| `RuntimeAudit.LinesDetermineEvents` | controls/ai-development-security/ai-coding-agent-runtime-hardening/scripts/runtime_audit.py:175-183 | The lines of a log determine its events |
| `RagRetrieval.ReturnedChunkIsAuthorized` | controls/ai-development-security/rag-corpus-integrity-retrieval/scripts/verify.py:526-598 | If an evaluation accepts, every result of every run traces to a registry record that is active, unexpired, unpoisoned and licensed, of the principal's tenant, within its clearance, with exact revision and digests |
| `RagRetrieval.RevokedNeverReturned` | controls/ai-development-security/rag-corpus-integrity-retrieval/scripts/verify.py:241-461 | An accepted evaluation never returns a chunk of a revoked source |
| `RagRetrieval.RunAnswersScenario` | controls/ai-development-security/rag-corpus-integrity-retrieval/scripts/verify.py:418-458 | In an accepted evaluation every retrieval run answers a scenario of the policy, cleanly |
| `RagRetrieval.Evaluate` | controls/ai-development-security/rag-corpus-integrity-retrieval/scripts/verify.py:526-598 | Status 0 exactly for evidence that all checkers accept under a well-formed policy without sensitive keys, 2 exactly for evidence that cannot be evaluated |
| `RagRetrieval.CheckRetrieval` | controls/ai-development-security/rag-corpus-integrity-retrieval/scripts/verify.py:396-461 | Usable and clean exactly as specified for every scenario, run and hit |
| `RagRetrieval.CheckDeletion` | controls/ai-development-security/rag-corpus-integrity-retrieval/scripts/verify.py:464-513 | The deletion findings in the order the checks are made; what it means that there are none is the next two rows |
| `RagRetrieval.DeletionAcceptedExactly` | controls/ai-development-security/rag-corpus-integrity-retrieval/scripts/verify.py:464-513 | No finding exactly when the named source is revoked and tombstoned, its content absent, the deletion within the propagation limit, the removed identifiers are the retired ones, and no retired identifier is in the snapshot |
| `RagRetrieval.DeletionIsComplete` | controls/ai-development-security/rag-corpus-integrity-retrieval/scripts/verify.py:464-598 | In an accepted evaluation the named source is revoked, deleted within the propagation limit and absent, and none of its retired chunks is in the snapshot or in any returned result |
| `RagCorpus.CheckRegistry` | controls/ai-development-security/rag-corpus-integrity-retrieval/scripts/verify.py:170-238 | Usable exactly when complete, current, well formed and free of repeated identities; the index by source; clean exactly when contents match their digests and limits |
| `RagCorpus.LoadRecords` | controls/ai-development-security/rag-corpus-integrity-retrieval/scripts/verify.py:170-238 | The record loop of the registry: identities, contents and digests |
| `RagCorpus.CheckIngestion` | controls/ai-development-security/rag-corpus-integrity-retrieval/scripts/verify.py:267-320 | The indexed set, and findings exactly when some decision departs from the expected one |
| `RagCorpus.IndexedIsAdmitted` | controls/ai-development-security/rag-corpus-integrity-retrieval/scripts/verify.py:241-320 | A clean ingestion indexes only active, unexpired, licensed and unpoisoned sources |
| `RagCorpus.CheckSnapshot` | controls/ai-development-security/rag-corpus-integrity-retrieval/scripts/verify.py:327-385 | Chunk index, and findings exactly when some entry does not match its admitted source or an active source is missing |
| `YamlRoundTrip.ScalarRoundTrip` | scripts/control_metadata.py:75-84 | Flags, decimal integers of either sign and quoted texts parse back to themselves |
| `YamlText.PrintedTextParses` | scripts/control_metadata.py:87-166 | For every representable document without line ends in its texts, parsing the text of its printed file, split into lines as text mode splits it, returns what it means |
| `YamlText.TextRoundTrip` | scripts/control_metadata.py:87-166 | A mapping the subset can carry survives being printed to a file and parsed from it if and only if no key and no text in it contains a line end |
| `YamlText.ParsedIsOneLine` | scripts/control_metadata.py:87-166 | No key and no text of any parsed document contains a line end |
| `YamlText.LineFeedIsLost` | scripts/control_metadata.py:87-166 | A concrete mapping with a line feed in a text, which its printed file does not return |
| `YamlText.ParseFile` | scripts/control_metadata.py:87-97 | Iterating over the file and skipping blank lines and comments meets the specification on the whole text |
| `YamlRoundTrip.BlockParse` | scripts/control_metadata.py:98-161 | A printed block inside any surrounding lines parses to its meaning and uses exactly its own lines |
| `YamlSubset.BlockConserves` | scripts/control_metadata.py:98-161 | A parsed block takes exactly one entry for each mapping key and each scalar item it yields, and has no duplicate keys |
| `YamlSubset.DocumentConserves` | scripts/control_metadata.py:163-166 | An accepted document is a mapping that uses every entry once, with no duplicate keys in any mapping |
| `YamlSubset.CommentsInvisible` | scripts/control_metadata.py:89-97 | A blank or comment line changes nothing, wherever it stands |
| `YamlSubset.ParseBlock` | scripts/control_metadata.py:98-161 | The index never moves back, and value and index are those of the specification on the remaining entries |
| `YamlSubset.ParseItem` | scripts/control_metadata.py:112-141 | One list item: scalar, nested mapping, or first field with continuation |
| `YamlSubset.ParseItems` | scripts/control_metadata.py:105-141 | The block loop on a list |
| `YamlSubset.ParseFields` | scripts/control_metadata.py:143-159 | The block loop on a mapping, with its duplicate-key and indentation errors |
| `YamlSubset.ParseYamlSubset` | scripts/control_metadata.py:87-166 | The whole file: entries, block, and the demand that every entry is consumed |
| `ChecklistProperties.NonInterference` | scripts/application_checklist_import.py:501-593 | Two valid inputs that differ only in wording, category or reconciliations of organization-only sources yield, under the same metadata, the same profile rows and the same public reconciliation; the counts agree exactly when the numbers of withheld reconciliations do |
| `ChecklistFiles.GeneratedNonInterference` | scripts/application_checklist_import.py:396-599 | The generated documents of two such inputs from different files: the public reconciliations are the same; the profile rows are the same up to Source SHA-256, and the same altogether exactly when there are none or the source digests agree; the status documents are the same exactly when the three file digests and the withheld counts agree |
| `ChecklistFiles.DigestsRevealTheFile` | scripts/application_checklist_import.py:579-593 | Withheld content does show in the documents: two publicly alike imports of different source files differ in the status document and in every profile row, unless the digests of the two files collide |
| `ChecklistFiles.PermutedReconciliation` | scripts/application_checklist_import.py:463-593 | Permuting the reconciliation rows changes neither acceptance nor rows nor counts; the status documents are the same exactly when the digests of manifest and reconciliation file are |
| `ChecklistProperties.StatusRevealsWithheldCount` | scripts/application_checklist_import.py:579-593 | The status counts do tell one withheld reconciliation from two: a concrete pair of inputs for every withheld source |
| `ChecklistProperties.RowOrderIrrelevant` | scripts/application_checklist_import.py:463-578 | Permuting the reconciliation rows changes neither acceptance nor the rows and counts that are exported |
| `ChecklistProperties.ImportConserves` | scripts/application_checklist_import.py:501-593 | Every reconciliation of a public source becomes exactly one profile row, in strict (source, atomic) order and nothing else does; the public reconciliation is the projected profile plus exactly one redacted row per organization-only source; the counts add up |
| `ChecklistProperties.RowsCarryRecords` | scripts/application_checklist_import.py:530-577 | From every profile row the metadata, the public source and the whole reconciliation can be read back, and every reconciliation that no organization-only source owns is read back from some row |
| `ChecklistProperties.ReconciliationConserves` | scripts/application_checklist_import.py:509-577 | The public part of the reconciliation is the projection of the profile, in order; the rest is one redacted row per organization-only source, in order |
| `ChecklistProperties.ProfileConserves` | scripts/application_checklist_import.py:505-577 | For any ascending list of sources the profile rows ascend and are exactly the rendered reconciliations of its public sources |
| `ChecklistImport.ExportRows` | scripts/application_checklist_import.py:434-593 | Accepted exactly when every row normalizes, identities are unique and the two files cover each other; rows and counts as specified |
| `ChecklistFiles.LoadApplicationProfile` | scripts/application_checklist_import.py:396-599 | From the files on: without a manifest the input is required, otherwise accepted exactly when the manifest is valid, its digests are those of the files, and both tables read and cover each other; the generated documents carry the digests |
| `ChecklistImport.LoadSources` | scripts/application_checklist_import.py:434-456 | The source loop: accepted exactly when all rows normalize with distinct identifiers |
| `ChecklistImport.LoadReconciliations` | scripts/application_checklist_import.py:463-529 | The reconciliation loop: accepted exactly when all rows normalize with distinct atomic identifiers and known sources; grouped by source in file order |
| `ChecklistImport.RenderSource` | scripts/application_checklist_import.py:505-577 | The profile and public rows of one source, redacted when it is organization-only |
| `ChecklistTable.TableToRecords` | scripts/application_checklist_import.py:304-324 | Accepted exactly when the stripped headers are distinct and the expected ones and no row is blank; one record per data row, in order |
| `ChecklistTable.ColumnOrderIrrelevant` | scripts/application_checklist_import.py:304-324 | Rearranging the columns, header and data alike, leaves every record as it was |
| `Spreadsheet.ColumnName` | scripts/generate-checklists.py:1020-1025 | The loop computes the bijective base-26 name (ST_CellRef, section 18.18.7 of ECMA-376 Part 1) |
| `Spreadsheet.NameThenIndex` | scripts/generate-checklists.py:1020-1025 | The index read back from a column's name is the column, for every number |
| `Spreadsheet.IndexThenName` | scripts/application_checklist_import.py:189-198 | Every upper-case name is the name of its index: the two loops are mutual inverses |
| `Spreadsheet.XlsxColumnIndex` | scripts/application_checklist_import.py:189-198 | The reader's loop computes the index, with the column cap applied afterwards |
| `Spreadsheet.ReferenceRoundTrip` | scripts/application_checklist_import.py:189-198 | The reader finds the writer's column in every cell reference, or reports the cap |
| `Spreadsheet.KeptCharacters` | scripts/generate-checklists.py:1028-1047 | The characters the writer keeps |
| `Workbook.SheetXml` | scripts/generate-checklists.py:1028-1075 | The written worksheet, both as text and cell by cell |
| `Spreadsheet.ReadSheet` | scripts/application_checklist_import.py:264-301 | The reader of one worksheet equals its specification, with row and column caps, shared strings, formulas and padding |
| `Workbook.SafeZipMembers` | scripts/application_checklist_import.py:201-212 | A directory is refused for a name that is absolute, climbs, or names macros or external links, and otherwise exactly when its sizes add up to more than 50 MiB |
| `Workbook.ReadXlsxTable` | scripts/application_checklist_import.py:215-301 | The archive is checked before anything is parsed; then the worksheet is read |
| `Spreadsheet.SheetRoundTrip` | scripts/application_checklist_import.py:264-301 | Sizes aside, writing and reading one worksheet returns its table if and only if it is rectangular, within the row and column caps, with no formula-like cell and no character that the writer drops or XML rewrites |
| `Workbook.WorkbookRoundTrip` | scripts/application_checklist_import.py:136-301 | Writing a workbook of any number of sheets and importing one of them returns its table if and only if the table is such, the compressed file is at most 20 MiB and the parts, with the worksheet texts counted in UTF-8, are at most 50 MiB together |
| `Workbook.LongTextIsRefused` | scripts/application_checklist_import.py:201-212 | Every clean text longer than 50 MiB makes a two-row table that meets all limits on tables and does not come back |
| `Workbook.ManyCellsAreRefused` | scripts/application_checklist_import.py:201-212 | The largest table of empty cells that the row and column caps allow does not come back either |
| `Workbook.CarriageReturnIsLost` | scripts/generate-checklists.py:1028-1047 | A concrete workbook with a carriage return in a cell, whatever its sizes, is not returned |
| `SlsaViewsAgree.ViewsAgree` | scripts/generate-checklists.py:430-481 | Given validated controls and registry, a checklist row is selected exactly when its Check ID is read back from some coverage row, and every identifier read back has its selected row |
| `SlsaViewsAgree.JoinedRoundTrip` | scripts/assess-slsa-build-l2.py:182-186 | Splitting a joined Mapped Checks field returns exactly the list that was joined |
| `SlsaViewsAgree.CoverageReadsBack` | scripts/assess-slsa-build-l2.py:182-186 | What is read back from a generated coverage row is the sorted set of the checks mapped to its requirement |
| `SlsaViewsAgree.FullIdInjective` | scripts/generate-checklists.py:266-267 | Control identifier and check identifier can both be recovered from the full identifier |
| `SlsaViewsAgree.IncludedMeans` | scripts/generate-checklists.py:284-310 | A row is in scope exactly when its control maps the check to a build requirement of level at most two |
| `SlsaViewsAgree.SortedSetSorts` | scripts/generate-checklists.py:473-475 | `sorted` of a set: the same members, strictly ascending |
| `SlsaViews.BuildRows` | scripts/generate-checklists.py:245-385 | The row loop yields the specified rows in control order |
| `SlsaViews.BuildSlsaL2Profile` | scripts/generate-checklists.py:430-481 | Selected rows and coverage table as specified, from one pass over the mappings |
| `SlsaViews.GroupByCheck` | scripts/generate-checklists.py:260-263 | The index by check holds each mapping once for each time it names the check |
| `SlsaViews.GroupByRequirement` | scripts/generate-checklists.py:438-448 | The index by requirement holds the full identifiers in catalogue order |
| `SlsaComposition.HandoverIsAccepted` | scripts/build-slsa-build-l2-evidence.py:298-395 | Whatever the adapter produces, the assessor accepts, with one indexed entry per evidence type, when both accept the policy and generation is not before assessment |
| `SlsaComposition.PassMeans` | scripts/assess-slsa-build-l2.py:320-367 | The conclusion is PASS exactly when every bundle item is pass, immutable and fresh at whole seconds and every coverage row is mapped to some check |
| `SlsaVerdict.PipelinePasses` | scripts/assess-slsa-build-l2.py:293-387 | From catalogue to verdict: with a generated coverage table, PASS exactly when all evidence is sound and every profile requirement has a check assigned by some control |
| `SlsaVerdict.GeneratedCoverageLoads` | scripts/assess-slsa-build-l2.py:166-207 | The assessor accepts every generated coverage table whose registry lists the policy's requirements |
| `SlsaVerdict.WorseEvidenceNeverImproves` | scripts/assess-slsa-build-l2.py:242-290 | Worsening any evidence result from pass to finding to error never improves a requirement's status or the conclusion |
| `SlsaVerdict.CatalogOrderIrrelevant` | scripts/assess-slsa-build-l2.py:231-290 | Permuting an accepted catalog leaves the whole assessment unchanged |
| `SlsaComposition.ConclusionIsWorst` | scripts/assess-slsa-build-l2.py:354-367 | The conclusion is the worst requirement status in the order PASS, NOT_CHECKED, FAIL, ERROR, and the summary counts add up to the number of requirements |
| `SlsaContract.TruncatedFreshness` | scripts/build-slsa-build-l2-evidence.py:377-381 | Truncating both times to seconds never rejects fresh evidence, and accepts stale evidence in exactly two named families |
| `SlsaContract.TruncationAcceptsStale` | scripts/build-slsa-build-l2-evidence.py:377-381 | Concrete times of both families |
| `SlsaComposition.CatalogIsAccepted` | scripts/build-slsa-build-l2-evidence.py:386-395 | Every assembled catalog passes the assessor's entry checks, one entry per type |
| `SlsaComposition.IndexOfBuilt` | scripts/assess-slsa-build-l2.py:264-289 | The indexed result of each evidence type in terms of the bundle item behind it |
| `SlsaAdapter.BuildCatalog` | scripts/build-slsa-build-l2-evidence.py:247-395 | Accepted exactly under the stated conditions on policies, trust entries and bundles; the catalog has one entry per evidence type in type order, each from the right role's bundle |
| `SlsaAdapter.RequireAssessmentPolicy` | scripts/build-slsa-build-l2-evidence.py:143-185 | Accepted exactly when header, requirements and issuers are sound and the referenced types are the issued ones |
| `SlsaAdapter.IndexTrust` | scripts/build-slsa-build-l2-evidence.py:274-297 | Accepted exactly when each required role is trusted once, reviewed by another and not in the future |
| `SlsaAdapter.AddItems` | scripts/build-slsa-build-l2-evidence.py:334-393 | The item loop of one bundle: accepted exactly when its items are sound, distinct and exactly the expected types; the catalog grows by their entries |
| `SlsaAssessor.LoadCoverage` | scripts/assess-slsa-build-l2.py:166-207 | Accepted exactly when the profile's rows are the policy's requirements, once each, with the expected metadata |
| `SlsaAssessor.IndexEvidence` | scripts/assess-slsa-build-l2.py:231-290 | Accepted exactly when entries are well formed with distinct codes and types; the index holds each effective result |
| `SlsaAssessor.Assess` | scripts/assess-slsa-build-l2.py:293-387 | Accepted exactly for sound inputs; results, summary and conclusion as specified |
| `SitfAgreement.CoverageRenders` | scripts/sitf_coverage.py:278-305 | A valid profile renders completely if and only if no technique identifier is padded with whitespace |
| `SitfAgreement.OneRowPerTechnique` | scripts/sitf_coverage.py:278-305 | The rendered rows are in bijection with the registry's 81 techniques |
| `SitfAgreement.FlowsRender` | scripts/sitf_coverage.py:308-335 | Valid flows render completely, one row per step, if and only if no step pads its technique identifier |
| `SitfAgreement.StepAgreesWithCoverage` | scripts/sitf_coverage.py:308-335 | A rendered step shows its technique, component and disposition exactly as the rendered coverage table does |
| `SitfAgreement.PaddingSlipsThrough` | scripts/sitf_coverage.py:98-185 | Padding one identifier of any valid profile keeps it valid and makes the renderer raise |
| `SitfCoverage.ValidateCoverage` | scripts/sitf_coverage.py:51-185 | No error exactly for profiles that meet the declarative rules |
| `SitfCoverage.CheckTechniques` | scripts/sitf_coverage.py:98-167 | No problem exactly when every technique is sound and no identifier repeats; the identifiers seen |
| `SitfCoverage.ValidateAttackFlows` | scripts/sitf_coverage.py:188-254 | No error exactly for flows that meet the declarative rules |
| `SitfCoverage.CheckSteps` | scripts/sitf_coverage.py:231-252 | No problem exactly when every step is sound; the components crossed |
| `SitfCoverage.BuildCoverageRows` | scripts/sitf_coverage.py:278-305 | Succeeds exactly when every technique renders, one row each in order |
| `SitfCoverage.BuildAttackFlowRows` | scripts/sitf_coverage.py:308-335 | The rows of all steps of all flows in order, or the first failing lookup |
| `CommentScanner.StripYamlComment` | controls/cicd-security/action-sha-pinning/scripts/verify.py:21-39 | A prefix of the line: everything before the first '#' outside quotes, or the whole line |
| `CommentScanner.StripFollowsGrammar` | controls/cicd-security/action-sha-pinning/scripts/verify.py:21-39 | However a line reads as closed segments and a tail, the cut is at the end of the segments when the tail starts a comment and nowhere otherwise |
| `CommentScanner.CutExactlyAtComment` | controls/cicd-security/action-sha-pinning/scripts/verify.py:21-39 | The scanner cuts a line exactly when it is closed segments followed by a '#', and cuts there |
| `CommentScanner.StripIdempotent` | controls/cicd-security/action-sha-pinning/scripts/verify.py:21-39 | Stripping twice is stripping once |
| `WorkflowPins.AcceptedMeansPinned` | controls/cicd-security/action-sha-pinning/scripts/verify.py:74-93 | Accepted references are exactly local paths, images by digest, and actions whose last forty characters after an '@' are a full commit |
| `WorkflowPins.VerifyFile` | controls/cicd-security/action-sha-pinning/scripts/verify.py:96-125 | Counts of checked and violating lines, or the refusal of unsupported syntax |
| `WorkflowPins.UsesExactly` | controls/cicd-security/action-sha-pinning/scripts/verify.py:12-15 | The reader finds a value in a line exactly when the whole line spells one `uses` entry with it: indentation, perhaps a dash, one of three key spellings, a colon, the value |
| `WorkflowPins.SkippedMeansNoKey` | controls/cicd-security/action-sha-pinning/scripts/verify.py:105-117 | A line is skipped exactly when it mentions no `uses` key outside its comment |
| `WorkflowPins.NothingEscapes` | controls/cicd-security/action-sha-pinning/scripts/verify.py:74-125 | In a file verified without a violation every line that mentions a `uses` key outside its comment is one scalar entry, and its value is an accepted reference |
| `WorkflowPins.CleanMeansPinned` | controls/cicd-security/action-sha-pinning/scripts/verify.py:96-125 | No violation exactly when every checked reference is pinned |
| `WorkflowPins.CommentsNeverMatter` | controls/cicd-security/action-sha-pinning/scripts/verify.py:96-125 | Removing every comment from a file leaves its counts unchanged |
| `DualControl.RecoverySignaturesValid` | controls/ai-development-security/rogue-agent-containment-recovery/scripts/verify.py:235-281 | The loop's answer equals the specified outcome, including verifier errors |
| `DualControl.AuthorizedExactlyUnderDualControl` | controls/ai-development-security/rogue-agent-containment-recovery/scripts/verify.py:235-281 | True exactly when signatures, distinct operators and required roles correspond one to one, each signature valid and each signer holding its role's authority |
| `DualControl.AcceptanceIgnoresOrder` | controls/ai-development-security/rogue-agent-containment-recovery/scripts/verify.py:235-281 | Acceptance never depends on the order of the signatures |
| `DualControl.OrderMattersExactly` | controls/ai-development-security/rogue-agent-containment-recovery/scripts/verify.py:235-281 | Two orders of a list have different answers exactly when the verifier fails on some bound entry and either another entry is refused by itself or an operator with a valid entry signs again |
| `DualControl.AnswerIgnoresOrder` | controls/ai-development-security/rogue-agent-containment-recovery/scripts/verify.py:235-281 | Otherwise the answer is the same in every order |
| `DualControl.OrderDecidesError` | controls/ai-development-security/rogue-agent-containment-recovery/scripts/verify.py:255-281 | With a failing verifier the order does decide between a refusal and an error: concrete lists |

## Left out

- Files, paths, links, permissions, subprocesses, standard input and output: parameters and nondeterministic faults stand
  for them. Splitting a file into lines is modelled for the audit log and for the indentation parser.
- SHA-256, JSON text, XML, zip and SQLite internals: uninterpreted functions, and one atomic transaction with
  two uniqueness constraints. Writing a JSON document and reading it back is taken to be the identity.
- Error messages and line numbers: each exception class is one error value, and validators count errors instead of
  collecting their text. An uncaught TypeError for an unhashable JSON value counts as the refusal it leads to.
- Floating-point numbers in JSON, and the rounding of `total_seconds` above 2^53 microseconds: ages are exact integers.
- Objects with a closed set of fields are records of JSON values with a flag that says whether the fields are exactly the
  expected ones; the names of unexpected fields are not modelled.
- GateProtocol.LedgerAlways: takes the audit policy to be the same for all processes, and printing to be one step that
  happens wholly or not at all; output buffered by the interpreter is not modelled.
- GateProgress.UnhinderedRunIsGranted: covers the undisturbed schedule only; no fairness is assumed or proved.
- GateLog.LogIsFaithful: says nothing about the text of a torn line except that reading back then differs.
- RuntimeReader.AuditMatches: starts from the parsed JSON objects; `splitlines` is modelled for text without carriage
  returns, which the log never contains. The TypeError of a provider that is looked up and cannot be hashed counts as an
  evaluation error.
- ApprovalCore.Evaluate: a signature digest with non-ASCII text, at which `compare_digest` raises, is read as a mismatch;
  either way nothing is allowed. The comparison of the policy with itself is omitted.
- SignedApproval.Ledger.AuthorizeAndConsume: key resolution and the OpenSSL call are one uninterpreted verifier.
- PretoolGate.AllowedExactly: the tool-name pattern is a parameter.
- RagRetrieval.Evaluate: the evidence documents searched for sensitive keys and the records read from them are separate
  parameters, so the theorems hold for every such pair. An accepted-tenants value that is not a list is not modelled.
- YamlSubset.ParseBlock: the one block loop is split into a list loop and a mapping loop; both branches are those of the
  source. Non-ASCII digits, which `\d` also matches, are not modelled.
- YamlText.TextRoundTrip: two limits of the interpreter are not modelled: `int` raises above 4300 digits, and the parser
  recurses on the interpreter's stack.
- YamlRoundTrip.ScalarRoundTrip: takes integers of any length; `int` raises above 4300 digits.
- SlsaViews.BuildRows: rows carry control, check and scope; texts, mapping summaries and evidence rows are left out.
- SlsaViews.BuildSlsaL2Profile: the mapping rationale column is left out, and minimum levels outside 0 to 127 are not
  modelled.
- ChecklistFiles.LoadApplicationProfile: decoding JSON, CSV and workbook bytes and the checks on paths are parameters.
- Workbook.WorkbookRoundTrip: finding a sheet by its name through the workbook's relationships is not modelled, and the
  sizes of the compressed file and of the five parts around the sheets are parameters.
- SitfAgreement.PaddingSlipsThrough: pads with one space; the if-and-only-if covers all whitespace.
- WorkflowPins.VerifyFile: starts from the lines of a file; file discovery is left out.
- The collectors, the capability, network, memory, resource, broker and adapter evaluators, the PSIRT and supply-chain
  profiles, and the prose renderers: they compare the fields of a document with fixed values, or write text.
- The side-effect reconciliation table: five fixed cases.
