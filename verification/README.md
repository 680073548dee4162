# Verified model of AiNIR

AiNIR is a fail-closed checker. It parses an untrusted proposal into a JSON-like tree,
checks it against reviewed contracts, binds the resulting artifacts to each other by
content hash, and emits a decision or lowered code. This project models its core and
proves, for every input, what that core promises.

`dafny verify dfyconfig.toml` checks everything.

| files | subject |
|---|---|
| Text, JsonTree, Dictionaries | strings, sorting, numerals; trees; dictionaries as member lists |
| CanonicalJson | canonical text, the duplicate-rejecting reader, numerals and escapes, depth |
| JsonPointer, JsonSchema, WorkspacePath | pointers and the sensitive scan, the bounded schema subset, path normal form |
| Artifacts, McpProfile, McpEnvelope(Facts), McpHostContext, McpAssessment(Facts), McpVerdict, McpConsent, McpAssessor, McpPreflight(Exact, Theorem), McpExample(Profile) | the preflight of an MCP tool call, and one call that passes |
| Lowering, LoweringSemantics, LoweringScopes, LoweringTraces, LoweringRetries | the lowerer to a TypeScript skeleton, and what hosts make of its output |
| EvidenceLedger, OperationRegistry, ProfileManifest | warrants, operation specs, additive profiles |
| EvidenceRecords, EvidenceBundles, EvidenceSigning, EvidenceValidation, EvidenceProvider, EvidenceCopies, EvidenceHonesty | the evidence provider and its independent validator |
| DraftSyntax, DraftParser, DraftRoundTrip, DraftSections, DraftTheorem, DraftAliases | the strict draft parser and printer |

Conventions. A tree is one recursive datatype; a dictionary is its list of members in
insertion order, and a theorem that needs distinct keys says so. Loops over lists,
sets and tables are methods with invariants, proved against recursive specification
functions; an object that the source updates (the lowerer, the ledger, the registry,
the profile validator, the provider, the parser) is a class. Artifacts with a fixed
key set are read into records and written from records; untrusted trees are never
assumed to have that shape. SHA-256, HMAC, timestamps, credential patterns and message
wording are parameters. Collision freedom is never assumed: the consent theorem
concludes that the envelopes are equal or that the two texts at hand collide.

Where the source departs from what one would expect, the model follows it: objects are
closed by default, `const` and `enum` compare as Python does, array indexes in pointers
may have leading zeros, and an absent tool is treated as an empty contract.

A float keeps the text that the JSON library prints for it, and how the library reads a
numeral is a parameter. A theorem about texts asks only that every float of the tree has
the form of a numeral with a fraction or an exponent and reads back as itself, which is
what the library promises for each finite float.

Automatic induction is switched off in every lemma; inductive proofs call themselves.

Four findings about the code itself are theorems here, each with an input that shows it
and the exact condition:

- operation ids that differ only in punctuation are lowered to one constant name: a draft
  that the lowerer accepts gives a program that does not compile
  (`LoweringScopes.DotAndUnderscoreClash`; exactly when, `LoweringScopes.CompilesExactly`);
- a registered blank operation id does not resolve to itself
  (`OperationRegistry.BlankIdIsReachable`; exactly when,
  `OperationRegistry.ResolutionIdempotentExactly`, and never where no blank id is
  registered, `OperationRegistry.NoBlankIdSettles`);
- an envelope is built for an unsupported protocol version and then fails its own
  validator (`McpEnvelopeFacts.DraftVersionIsBuiltButInvalid`; exactly when,
  `McpEnvelopeFacts.BuiltEnvelopeValidExactly`);
- a printed draft is reported again when the workflow table sends one alias to another
  (`DraftAliases.ChainedAliasBreaksRoundTrip`; exactly when, `DraftTheorem.ParsePrintParse`).

## Model

| member | source | states |
|---|---|---|
| CanonicalJson.RejectDuplicateJsonKeys | src/ainir/canonical.py:22-30 | the loop over key/value pairs refuses a repetition and otherwise keeps every pair in order |
| CanonicalJson.NoRepeatIsDistinct | src/ainir/canonical.py:22-30 | no repetition is found exactly when the keys are pairwise different |
| CanonicalJson.StrictReaderExactly | src/ainir/canonical.py:116-121 | the duplicate-rejecting reader accepts a text exactly when the plain reader does and no dictionary in the tree repeats a key; every other readable text is reported as a repetition |
| CanonicalJson.CanonicalRoundTrip | src/ainir/canonical.py:51-60 | for every tree whose floats carry the text that the JSON library prints for them and reads back, reading the canonical text with the duplicate-rejecting reader gives the tree back up to key order |
| CanonicalJson.CanonicalTextIdentifies | src/ainir/canonical.py:51-60 | two such trees have one canonical text exactly when they are the same value with dictionaries compared without order |
| CanonicalJson.NormIdempotent | src/ainir/mcp_tool_call.py:254-258 | copying a tree through canonical JSON twice is copying it once |
| CanonicalJson.JsonDepthExact | src/ainir/canonical.py:37-48 | the depth walk fails exactly when current plus height exceeds the limit and otherwise returns that sum |
| CanonicalJson.AcceptedArtifactIsBounded | src/ainir/canonical.py:90-150 | whatever the bytes, an accepted artifact is a dictionary without repeated keys at any depth, no deeper than the limit, from a file no longer than the limit |
| CanonicalJson.ArtifactRoundTrip | src/ainir/canonical.py:90-150 | the bytes of a canonical text are accepted exactly when they fit the limit and the tree is a dictionary within the depth limit, and then yield that dictionary |
| JsonPointer.JsonPointerGet | src/ainir/mcp_tool_call.py:705-724 | the walk that updates the current node computes the recursive resolution of the reference tokens |
| JsonPointer.EscapeRoundTrip | src/ainir/mcp_tool_call.py:712-763 | undoing the token escapes (RFC 6901 section 4) gives every key back, and an escaped key has no slash |
| JsonPointer.PointerFindsPlace | src/ainir/mcp_tool_call.py:705-724 | the pointer of any place in a tree finds exactly the node at that place |
| JsonPointer.ScanSensitivePaths | src/ainir/mcp_tool_call.py:759-772 | the accumulating recursive scan computes the sorted set of reported pointers |
| JsonPointer.ScanExact | src/ainir/mcp_tool_call.py:759-772 | on a dictionary or list a pointer is reported exactly when it is the pointer of a node whose key or text is sensitive, and it resolves to that node |
| JsonPointer.ScanEmptyExactly | src/ainir/mcp_tool_call.py:759-772 | nothing is reported exactly when no place is sensitive |
| JsonPointer.ScanHasNoDuplicates | src/ainir/mcp_tool_call.py:772 | the report is strictly ascending, so it has no duplicates |
| JsonSchema.SchemaDefinitionFindings | src/ainir/mcp_tool_call.py:424-481 | the definition check of a schema, finding by finding |
| JsonSchema.SchemaPropertyFindings | src/ainir/mcp_tool_call.py:454-458 | the loop over declared properties, with its recursive calls |
| JsonSchema.SchemaValueFindings | src/ainir/mcp_tool_call.py:484-533 | the value check, finding by finding |
| JsonSchema.SchemaMemberFindings | src/ainir/mcp_tool_call.py:511-513 | the loop over the properties of a value, with its recursive calls |
| JsonSchema.SchemaItemFindings | src/ainir/mcp_tool_call.py:519-522 | the loop over the items of a list, with its recursive calls |
| JsonSchema.ValueCheckExact | src/ainir/mcp_tool_call.py:484-533 | under a schema whose definition is clean, a value has no findings exactly when it conforms to the recursive meaning of the subset: closed objects, required names, item schemas, bounds, const and enum, at every nesting |
| JsonSchema.DefinitionPathFree | src/ainir/mcp_tool_call.py:424-481 | whether a definition is clean does not depend on the path it is reported under |
| JsonSchema.ConformingIsShallow | src/ainir/mcp_tool_call.py:449-522 | a conforming value is nested no deeper than its schema |
| JsonSchema.AcceptedIsShallow | src/ainir/mcp_tool_call.py:449-522 | a value without findings is nested no deeper than its schema |
| WorkspacePath.NormalizeWorkspacePath | src/ainir/mcp_tool_call.py:727-752 | the chain of early returns accepts exactly relative paths of portable parts, and its result is relative, has no dot, dot-dot or empty part, keeps the parts and normalises to itself |
| WorkspacePath.FindBadPart | src/ainir/mcp_tool_call.py:743-748 | the loop returns the error of the first part that is not portable |
| WorkspacePath.AcceptedForm | src/ainir/mcp_tool_call.py:727-752 | an accepted path is non-empty and relative, without dot, dot-dot, empty or reserved components |
| WorkspacePath.NormalFormIsFixed | src/ainir/mcp_tool_call.py:727-752 | an accepted result is a fixed point |
| WorkspacePath.SeparatorKindIrrelevant | src/ainir/mcp_tool_call.py:737-749 | inputs that differ only in the kind of their separators have one result or one error |
| WorkspacePath.AcceptedStaysBelowRoot | src/ainir/mcp_tool_call.py:739-749 | joined to any root and walked component by component, an accepted path stays below that root |
| WorkspacePath.SameResourceExactly | src/ainir/mcp_tool_call.py:749-752 | two accepted inputs have one normal form exactly when they name the same components |
| Lowering.TypeScriptLowerer.IndexOperations | src/ainir/lowering.py:56-58 | the include map that the loops build sends an operation id to the last transaction that includes it |
| Lowering.TypeScriptLowerer.EmitOperation | src/ainir/lowering.py:148-173 | the lines of one operation, appended to the shared list, or a refusal for an unsafe id |
| Lowering.TypeScriptLowerer.CollectRun | src/ainir/lowering.py:122-125 | the inner loop collects the maximal run of operations of one transaction |
| Lowering.TypeScriptLowerer.EmitBracket | src/ainir/lowering.py:121-140 | the lines of one bracket around such a run |
| Lowering.TypeScriptLowerer.EmitBody | src/ainir/lowering.py:112-140 | the outer loop appends one bracket for each maximal run and each other operation on its own |
| Lowering.TypeScriptLowerer.LowerToTypescript | src/ainir/lowering.py:26-145 | the whole program, or a refusal exactly when a type, the return expression or an operation id is not allowed |
| LoweringSemantics.OperationPlays | src/ainir/lowering.py:168-173 | running the lines of an operation is playing its two events against the host |
| LoweringSemantics.BodyPlays | src/ainir/lowering.py:112-140 | running the emitted body from a boundary is playing the events of the direct specification |
| LoweringScopes.CompilesExactly | src/ainir/lowering.py:112-140 | the program declares no constant twice in a block and uses none undeclared exactly when no two of its declarations clash |
| LoweringScopes.LoweringPreservesMeaning | src/ainir/lowering.py:26-145 | run against any host that runs each transaction body once and may refuse any call after whatever it has seen, the emitted program behaves as the direct specification when its names fit, and does nothing otherwise |
| LoweringScopes.DotAndUnderscoreClash | src/ainir/lowering.py:222-223 | a draft that the lowerer accepts, with operations named a.b and a_b, whose program does not compile |
| LoweringScopes.PlainIdsFit | src/ainir/lowering.py:168-223 | distinct short alphanumeric ids and contiguous transactions always give a program that compiles |
| LoweringTraces.OperationsInOrder | src/ainir/lowering.py:112-140 | in the specified events every operation is enforced and then called once, in draft order, with the transaction of the include map |
| LoweringTraces.EventsAreBracketed | src/ainir/lowering.py:134-139 | a bracket is enforced and begun, holds only operations of its own transaction, and ends before the next |
| LoweringTraces.NeighbouringBracketsDiffer | src/ainir/lowering.py:121-140 | two brackets without an operation between them never have one transaction id |
| LoweringTraces.OneBracketPerRun | src/ainir/lowering.py:121-140 | the brackets of a transaction are as many as its maximal runs |
| LoweringTraces.OneBracketExactly | src/ainir/lowering.py:121-140 | a transaction gets exactly one bracket exactly when it owns some operations and they are contiguous |
| LoweringTraces.ExecutionShowsPrefix | src/ainir/lowering.py:105-140 | whatever the host does, it sees a prefix of the specified events |
| LoweringTraces.CallsAreEnforced | src/ainir/lowering.py:134-172 | under any host, a call directly follows an accepted enforcement of the same envelope and, inside a transaction, an accepted begin that has not ended |
| LoweringTraces.AcceptingHostSeesEverything | src/ainir/lowering.py:105-142 | a host that accepts every call sees exactly the specified trace and the program returns |
| LoweringRetries.LoweringPreservesRetries | src/ainir/lowering.py:105-142 | the same for every host that runs a body any number of times and catches what it throws: each run plays the operations of the bracket in order, in a fresh block |
| LoweringRetries.RetriedCallsAreEnforced | src/ainir/lowering.py:134-172 | under any host and any number of runs of a body, a call directly follows an accepted enforcement of the same envelope and, inside a transaction, an accepted begin that has not ended |
| LoweringRetries.WholeRuns | src/ainir/lowering.py:134-139 | a host that accepts every call sees a bracket as a whole number of runs, each with every operation enforced and called in draft order |
| LoweringRetries.OnceMeansTheSame | src/ainir/lowering.py:105-142 | for such a host that runs each body once this is the direct specification |
| Artifacts.RecordReadsBack | src/ainir/mcp_tool_call.py:866-898 | a dictionary written with fixed, distinct keys reads back field by field |
| Artifacts.EqualDigests | src/ainir/mcp_tool_call.py:386-399 | equal projection hashes come from equal contents or exhibit two different texts with one hash; floats included |
| Artifacts.SameProjectionSameFields | src/ainir/mcp_tool_call.py:390-391 | equal projections leave only the dropped fields to differ |
| McpProfile.ValidateBindings | src/ainir/mcp_tool_call.py:655-672 | the loop with its set of seen pointers accepts exactly fine bindings with pairwise different pointers |
| McpProfile.ValidateTools | src/ainir/mcp_tool_call.py:616-690 | the loop with its set of seen names accepts exactly fine tools with pairwise different names |
| McpProfile.ValidateProfile | src/ainir/mcp_tool_call.py:581-702 | a profile is accepted exactly when its header, policies, hash and every tool are fine |
| McpProfile.ProfileToolMap | src/ainir/mcp_tool_call.py:573-578 | the table of tools by name, a later tool replacing an earlier one |
| McpProfile.ToolMapExact | src/ainir/mcp_tool_call.py:573-578 | in an accepted profile a name leads exactly to the one tool that bears it |
| McpEnvelope.CollectResources | src/ainir/mcp_tool_call.py:824-845 | the loop over resource bindings builds the requested resources and their findings |
| McpEnvelope.BuildEnvelope | src/ainir/mcp_tool_call.py:780-902 | the envelope of a call, or the first structural error |
| McpEnvelope.ValidateEnvelope | src/ainir/mcp_tool_call.py:905-992 | an envelope is accepted exactly when its seal, scalars, resources and findings are fine |
| McpEnvelope.SealKeepsDigest | src/ainir/mcp_tool_call.py:899-913 | adding the hash and the id leaves the hash that a validator recomputes |
| McpEnvelopeFacts.SensitivePathsFine | src/ainir/mcp_tool_call.py:849-855 | the sensitive paths of a built envelope are distinct pointers |
| McpEnvelopeFacts.EnvelopeFindingsFine | src/ainir/mcp_tool_call.py:819-855 | every finding of a built envelope is critical and well formed, and there is none exactly when the tool is known, all resources are usable, the arguments conform and nothing is sensitive |
| McpEnvelopeFacts.BuiltEnvelopeValidExactly | src/ainir/mcp_tool_call.py:780-992 | a built envelope passes its own validator exactly when the protocol version is supported and the headers are strings or absent |
| McpEnvelopeFacts.DraftVersionIsBuiltButInvalid | src/ainir/mcp_tool_call.py:815-916 | any call that can be built is also built under the protocol version named draft, and then fails the envelope validator |
| McpHostContext.SealedConsentDigest | src/ainir/mcp_tool_call.py:1023-1139 | hashing the consent before its id is added is hashing it without its id |
| McpHostContext.BuiltContextValidExactly | src/ainir/mcp_tool_call.py:995-1166 | a context built for a valid envelope passes its own validator exactly when the host facts are well formed |
| McpAssessment.ValidateChecks | src/ainir/mcp_tool_call.py:1339-1352 | the loop with its set of seen names accepts exactly a non-empty list of fine checks without a repeated name |
| McpAssessment.ValidateAssessment | src/ainir/mcp_tool_call.py:1322-1396 | an assessment is accepted exactly when its seal, fields and embedded checks are fine |
| McpAssessmentFacts.ChecksRanked | src/ainir/mcp_tool_call.py:1196-1280 | whatever checks a case makes, they come in one fixed order, each at most once |
| McpAssessmentFacts.CheckTreesFine | src/ainir/mcp_tool_call.py:1339-1355 | the embedded list has unique names and shows a failure exactly when a check failed |
| McpAssessmentFacts.AssessmentIsValid | src/ainir/mcp_tool_call.py:1188-1396 | the assessment of three valid inputs passes the assessment validator, whatever its verdict |
| McpVerdict.ChecksPass | src/ainir/mcp_tool_call.py:1196-1280 | all checks pass exactly when every condition they stand for holds |
| McpVerdict.VerdictMeans | src/ainir/mcp_tool_call.py:1282-1289 | each of the four verdicts exactly from the conditions, the decision mode and the validity of the inputs |
| McpConsent.AssessmentShowsVerdict | src/ainir/mcp_tool_call.py:1296-1300 | the document states the verdict and allows a handoff exactly when it is a pass |
| McpAssessor.CheckAnnotations | src/ainir/mcp_tool_call.py:1169-1185 | a hint of the tool annotations is checked exactly when given in its reassuring form, once and in order, and all pass exactly when no hint claims more than the reviewed contract bears out |
| McpAssessor.CheckTransaction | src/ainir/mcp_tool_call.py:1269-1280 | all checks pass exactly when a required transaction is present, prepared and bound, with its rollback where one is required, or none is required and none is there; no check is made twice |
| McpAssessor.CollectChecks | src/ainir/mcp_tool_call.py:1196-1280 | no check is made twice, all of them pass exactly when the profile, the envelope and the context meet every condition, and an invalid input or unknown tool shows as a failure |
| McpAssessor.Assess | src/ainir/mcp_tool_call.py:1188-1319 | the status that the conditions demand, a handoff exactly for a pass, the artifacts it binds, and a document that its own validator accepts whenever the three inputs are valid |
| McpConsent.ConsentIsNotTransferable | src/ainir/mcp_tool_call.py:1257-1289 | if one context is judged favourably for two envelopes, they are the same envelope field by field, or the two exhibit a hash collision; float arguments included |
| McpConsent.DestructiveNeverPasses | src/ainir/mcp_tool_call.py:643-1289 | a call that passes names a tool of the profile that is not of the destructive risk class |
| McpPreflight.CapabilitiesExactly | src/ainir/mcp_tool_call.py:1244-1246 | the capability check passes exactly when the granted set is the reviewed set |
| McpPreflightExact.CleanExact | src/ainir/mcp_tool_call.py:819-855 | an envelope finds nothing exactly when the arguments are admissible: usable resources, conforming, nothing sensitive |
| McpPreflightExact.HostExact | src/ainir/mcp_tool_call.py:1228-1280 | for a context built from well-formed facts the host checks pass exactly when the facts are admissible |
| McpPreflightExact.CaseExact | src/ainir/mcp_tool_call.py:1196-1280 | for a built envelope and context all checks pass exactly when the call is admissible for the reviewed tool |
| McpPreflightTheorem.PreflightPassesExactly | src/ainir/mcp_tool_call.py:780-1319 | the chain ends in a pass exactly when one predicate over profile, descriptor, call and host facts holds, and in a review exactly when the same holds of a tool whose calls are reviewed |
| McpPreflightTheorem.PreflightExactly | src/ainir/mcp_tool_call.py:780-1319 | building the envelope, building the context and assessing end without a verdict exactly for what the builders refuse, and otherwise with the one verdict of four that profile, call and host facts demand |
| McpExample.PassIsPossible | src/ainir/mcp_tool_call.py:780-1319 | a reviewed profile, a call and a host, spelled out, that are admissible together, and which the chain passes |
| EvidenceLedger.Ledger.constructor | src/ainir/evidence_ledger.py:49-55 | the records by id, a later record replacing an earlier one |
| EvidenceLedger.TableExact | src/ainir/evidence_ledger.py:52-55 | an id leads to the last record that bears it |
| EvidenceLedger.BelievedExactly | src/ainir/evidence_ledger.py:84-170 | a reference is believed exactly when its id is usable, it attests nothing itself, and the last record of that id vouches for it |
| EvidenceLedger.OnlyIdAndKindMatter | src/ainir/evidence_ledger.py:89-101 | a reference that agrees with a believed one on id and kind is believed unless it attests something |
| EvidenceLedger.Ledger.Summarize | src/ainir/evidence_ledger.py:188-231 | the nested loops compute the six counters and the failed reasons |
| EvidenceLedger.CountersAgree | src/ainir/evidence_ledger.py:196-231 | the counters are ordered as they should be, and references are the checked ones plus the failures |
| EvidenceLedger.CounterMeans | src/ainir/evidence_ledger.py:217-220 | the last counter is positive exactly when a verified claim has a believed reference |
| EvidenceLedger.Ledger.FindBelieved | src/ainir/evidence_ledger.py:284-288 | the loop with its break finds whether some evidence is believed |
| EvidenceLedger.Ledger.NonVacuousFindings | src/ainir/evidence_ledger.py:234-301 | the reported problem, and none exactly when the draft is fully warranted |
| EvidenceLedger.GuardsOnlySelect | src/ainir/evidence_ledger.py:237-300 | when the final loop has no complaint no earlier guard fires, so the guards only choose which problem is reported |
| EvidenceLedger.WarrantExactly | src/ainir/evidence_ledger.py:234-301 | no problem is reported exactly when there is a claim and every claim is verified with some believed reference |
| OperationRegistry.Registry.constructor | src/ainir/operation_registry.py:114-131 | specs and aliases as the nested loops fill them: the first registration of an id wins |
| OperationRegistry.TableIsSound | src/ainir/operation_registry.py:118-131 | every alias leads to a registered id, and every spec is a registered item unchanged |
| OperationRegistry.ResolutionLands | src/ainir/operation_registry.py:153-161 | whatever a name resolves to is registered |
| OperationRegistry.ResolutionIdempotentExactly | src/ainir/operation_registry.py:153-161 | a resolved name resolves on to itself exactly when the name is registered or its alias does not lead to a blank id |
| OperationRegistry.NoBlankIdSettles | src/ainir/operation_registry.py:118-161 | where no item registers a blank id, resolution is idempotent for every name |
| OperationRegistry.BlankIdIsReachable | src/ainir/operation_registry.py:126-161 | a registered blank id can be reached through an alias and does not resolve to itself |
| OperationRegistry.Registry.BindingFindings | src/ainir/operation_registry.py:195-257 | the findings of a draft operation, loop by loop |
| OperationRegistry.FlagsExact | src/ainir/operation_registry.py:211-257 | a registered operation has no findings exactly when its declared effects, capabilities, roles and policies lie within its spec |
| ProfileManifest.Validator.StringList | src/ainir/profile_manifest.py:325-340 | the tokens of a list field and its issues, appended to the shared list |
| ProfileManifest.Validator.CheckOperations | src/ainir/profile_manifest.py:600-677 | the loop over operations: their issues, and exactly the ids, effects and capabilities they name |
| ProfileManifest.Validator.CheckWorkflows | src/ainir/profile_manifest.py:560-598 | the loop over workflows, every field of their semantic profiles included: their issues, and exactly the ids and required effects they name |
| ProfileManifest.Validator.CheckVocabulary | src/ainir/profile_manifest.py:697-712 | one issue for each used name outside the reviewed vocabulary |
| ProfileManifest.Validator.CheckAdditive | src/ainir/profile_manifest.py:543-764 | the issues of the additive branch, in order, the fields of workflows, operations and evidence included |
| ProfileManifest.ExactContract | src/ainir/profile_manifest.py:638-672 | an operation without issues allows exactly the effects and capabilities it names: no family, no prefix, nothing extra |
| ProfileManifest.AcceptedSpecIsReviewed | src/ainir/profile_manifest.py:600-712 | every operation of an accepted manifest allows only reviewed effects and capabilities |
| ProfileManifest.ProfilesCannotWiden | src/ainir/profile_manifest.py:543-712 | under a spec from an accepted manifest, a draft operation without findings declares at least the required and at most the allowed and reviewed effects and capabilities |
| ProfileManifest.RegistryCannotWiden | src/ainir/profile_manifest.py:543-712 | under a registry of the operations of an accepted manifest, a raw draft operation without findings that names one of them, or whose workflow demands it, has a spec and declares at least what that requires and nothing unreviewed |
| ProfileManifest.CoverageIsExact | src/ainir/profile_manifest.py:741-764 | an accepted manifest covers exactly the workflows, operations, effects, capabilities and evidence its extensions use |
| EvidenceRecords.RecordFineNorm | src/ainir/evidence_provider.py:605-679 | a record is valid exactly when its copy is, under one hash |
| EvidenceBundles.BundleIgnoresOrder | src/ainir/evidence_provider.py:445-458 | the same records in any order build the same bundle, hash and id |
| EvidenceBundles.CountingFindsRepeats | src/ainir/evidence_provider.py:710 | a list is as long as its set exactly when nothing repeats |
| EvidenceBundles.ValidateRecords | src/ainir/evidence_provider.py:696-710 | the loop over the records accepts exactly 1 to 512 valid records of this provider with distinct ids |
| EvidenceBundles.ValidateBundle | src/ainir/evidence_provider.py:682-726 | a bundle is accepted exactly when its header, records, hash, id and signature are fine |
| EvidenceBundles.BuiltBundleValidExactly | src/ainir/evidence_provider.py:438-726 | a built bundle is valid exactly when its records are bundleable |
| EvidenceSigning.SignBundle | src/ainir/evidence_provider.py:462-483 | the signed copy of a valid bundle, or the first reason to refuse |
| EvidenceSigning.SigningKeepsHash | src/ainir/evidence_provider.py:472-483 | signing changes nothing but the signature, and not the hash |
| EvidenceSigning.SignatureVerifiesExactly | src/ainir/evidence_provider.py:486-506 | a signature verifies exactly under a long enough key of its id with the same HMAC of the bundle hash |
| EvidenceSigning.SignedBundleValid | src/ainir/evidence_provider.py:462-726 | a signed valid bundle is valid where a verified signature is required |
| EvidenceValidation.ValidateResolution | src/ainir/evidence_provider.py:1056-1242 | the verdict on a resolution is the conjunction of its conditions |
| EvidenceValidation.PolicyMonotonicity | src/ainir/evidence_provider.py:951-1215 | whatever is accepted under a policy is accepted under every valid policy that is looser in each dimension |
| EvidenceProvider.BundleEvidenceProvider.constructor | src/ainir/evidence_provider.py:769-798 | the provider's copied bundle, identity, signature status, validity and index |
| EvidenceProvider.BundleEvidenceProvider.Resolve | src/ainir/evidence_provider.py:800-840 | the sealed answer to a request: provider error, not found, or the indexed record |
| EvidenceHonesty.RunHonest | src/ainir/evidence_provider.py:768-840 | a provider built from a bundle that is valid under its keys shows and answers as the honest provider does |
| EvidenceProvider.IndexAgreesWithScan | src/ainir/evidence_provider.py:794-1194 | with distinct ids the dictionary and the linear scan find the same record, or both none |
| EvidenceCopies.BundleFineNorm | src/ainir/evidence_provider.py:682-772 | the canonical copy that a provider keeps of a valid bundle is valid, with the same hash and signature |
| EvidenceHonesty.HonestVerdictExactly | src/ainir/evidence_provider.py:768-1215 | a valid request to an honest provider, signed or not, is accepted under a valid policy exactly when the policy admits the provider and its signature, the request is addressed to it and names a bundled record that meets its conditions |
| EvidenceHonesty.HonestIsNeverRefused | src/ainir/evidence_provider.py:768-1215 | for an unsigned provider that comes down to a policy that asks for no signature and admits its identity, whatever keys the host holds |
| EvidenceHonesty.SignedIsNeverRefused | src/ainir/evidence_provider.py:462-1215 | a provider made by signing a valid bundle is accepted exactly when the policy admits it and its key id, the key that the host holds fits, and the request is addressed to it and names a suitable record |
| DraftParser.Parser.ParseIdList | src/ainir/draft_ast.py:321-341 | the ids of a list and its findings, appended to the shared list |
| DraftParser.Parser.ParseOperations | src/ainir/draft_ast.py:286-318 | the operations and their findings, with the set of seen ids |
| DraftParser.Parser.ParseClaims | src/ainir/draft_ast.py:344-373 | the claims and their findings |
| DraftParser.Parser.ParseEvidence | src/ainir/draft_ast.py:376-388 | the evidence and its findings |
| DraftParser.Parser.ParsePolicies | src/ainir/draft_ast.py:391-397 | the policies and their findings |
| DraftParser.Parser.ParseHoles | src/ainir/draft_ast.py:400-411 | the holes and their findings |
| DraftParser.Parser.ParseDraft | src/ainir/draft_ast.py:200-265 | the AST and the findings of a draft |
| DraftRoundTrip.OperationRoundTrip | src/ainir/draft_ast.py:80-318 | a clean operation, printed and parsed again, is the same operation, and prints to the same tree |
| DraftRoundTrip.OperationsRoundTrip | src/ainir/draft_ast.py:80-318 | all clean operations read back from their printed list, with the same seen ids |
| DraftRoundTrip.ClaimRoundTrip | src/ainir/draft_ast.py:103-373 | a clean claim, printed and parsed again, is the same claim, and prints to the same tree |
| DraftTheorem.ParsePrintParse | src/ainir/draft_ast.py:160-265 | parsing the printed form of a parsed draft gives no findings and the same draft apart from the stored raw mappings exactly when the canonical name of its workflow is a safe identifier that normalises to itself |
| DraftTheorem.PrintParsePrint | src/ainir/draft_ast.py:160-265 | for such drafts printing after parsing is the identity on printed drafts |
| DraftAliases.ChainedAliasBreaksRoundTrip | src/ainir/draft_ast.py:160-265 | under a table that sends one alias to another, a draft parses with the alias warning alone, and its printed form is reported again |

## Left out

- CanonicalJson.StrictReaderExactly: half of a surrogate pair, which the source keeps as a lone code point, is refused as malformed; so is a numeral beyond the float range, which the source reads as infinity and then fails to print.
- CanonicalJson.AcceptedArtifactIsBounded: starts from the bytes of the file; reading them from disk and the rules of UTF-8 are not modelled.
- Python limits on recursion, memory and integer digits, and the exceptions they raise.
- Values that Python cannot hash where it looks them up in a set: the source raises, the model refuses them.
- JsonPointer.JsonPointerGet: list indexes are ASCII digits; Python also takes other Unicode digits, and raises on superscripts.
- WorkspacePath.NormalizeWorkspacePath: reserved names are compared after upper-casing ASCII letters only. No other character changes the outcome: outside ASCII only the dotless i, the long s, the sharp s and the f and st ligatures upper-case to ASCII letters, all of which bring an I, an S or an F that no reserved name has.
- WorkspacePath.FindBadPart: the same upper-casing of ASCII letters.
- `PurePosixPath` and `PureWindowsPath`: splitting on separators and dropping empty and dot parts.
- Credential patterns, ISO-8601 parsing, SHA-256 and HMAC internals: parameters.
- The wording of messages, and the expected and actual values shown by a check: the checks of an assessment carry their name and status.
- McpProfile.ValidateProfile: descriptor files are read through a parameter; path containment on disk is not modelled.
- McpAssessor.Assess: on an invalid profile or envelope, whose verdict is the same either way, a profile id that is not a string is kept as it is, and the lists of effects and capabilities keep their strings only, where the source may raise.
- Lowering.TypeScriptLowerer.LowerToTypescript: the eligibility gate before lowering, the type declarations and the fixed header lines are inert text; registry look-ups are parameters.
- LoweringSemantics.BodyPlays: about hosts that run a transaction body once; other numbers of runs are LoweringRetries.LoweringPreservesRetries.
- LoweringScopes.LoweringPreservesMeaning: the same.
- LoweringRetries.LoweringPreservesRetries: the runs of a body follow each other; a host that runs two at once, or after `runTransaction` has returned, is not modelled. The number of runs is finite, by a limit that can be any number.
- EvidenceLedger.BelievedExactly: the artifact comparison on disk is one parameter of the record; reliabilities that are not a number are not modelled.
- ProfileManifest.Validator.CheckAdditive: only the additive branch up to coverage coherence; headers, policies and conformance packs are not modelled, so acceptance here asks less than the source and the theorems about it say more.
- OperationRegistry.Registry.BindingFindings: the safety registry (effect and operation families, known workflows, forbidden roles) and the compact form of a name are parameters.
- EvidenceBundles.BundleIgnoresOrder: about records whose copies have distinct ids; equal ids keep their given order.
- EvidenceValidation.ValidateResolution: the verdict, not the report document; building records, requests and policies is not modelled.
- EvidenceProvider.BundleEvidenceProvider.constructor: the file and signed-file subclasses add only reading from disk.
- DraftParser.Parser.ParseDraft: findings are rules without target and message; the two findings of a decode error are one; a root that is not a dictionary is refused without looking for loader flags in it. A workflow normaliser that returns the empty string, which trips an assertion in the source, is a refusal here.
- `src/ainir/openai_function_tool_adapter.py`, `src/ainir/contract_validation.py` and `src/ainir/lowering_gate.py`: field-by-field conjunctions.
- The verifier, trust gate, replay, safety registry, transaction contract, command line, reports, scripts and evaluation harnesses are not part of this model.
