# terraform-provider-minecraft: resource reconciliation

This project models how each resource of the Minecraft Terraform provider
(`internal/provider/*_resource.go`) turns planned attributes into commands
for the game server. It also models the identity string each resource
builds and what each resource writes back to Terraform state or reports as
diagnostics.

Every resource follows the same shape: validate the plan, issue client calls
in order, stop at the first failure, and write state only on success. Four
resources go beyond that shape:

- The bed and the double chest are placed as two blocks. When the second
  block fails on create, the first one is deleted again. Update does no such
  rollback.
- The gamemode resource reads the current mode before writing a new one,
  keeps it as a snapshot and restores it on delete.
- The team member resource validates that exactly one target is set. It
  builds the ID `team|kind|value` and parses it back with a split into at
  most three parts.
- The team resource applies five optional settings in a fixed order.

## How the model is built

- **Client.** `Remote.Transport` is a class with a `log: seq<Cmd>`. Each
  `Cmd` constructor is one client call with the arguments the resource
  passes. `Call` and `Query` append to the log.
- **Server.** Whether a call fails, and the text a query returns, come from
  a `Server` oracle. The oracle is indexed by the call's position in the
  log.
- **Spec function per operation.** Each lifecycle operation that uses the
  client has a pure function written in the source's own structure:
  `CreateRun`, `UpdateRun`, `ReadRun` and `ImportRun` return
  `Run(cmds, state, diags)`; `DeleteRun` returns `Removal(cmds, diags)`.
  Its contract states the property the code promises. The lemmas beside it
  relate several operations: delete undoes create, import reads back the ID
  create wrote, and IDs are injective.
- **Method per operation.** Each such operation is also an imperative
  `method` that issues the calls step by step, with the early returns the Go
  code has. Its `ensures` says that the log grew by exactly the spec
  function's commands, and that the returned state and diagnostics are the
  spec function's.
- **Missing client.** Every resource that checks for a missing client does
  so first: it reports `Framework.NotConfigured` and sends nothing. Bed and
  block have no such check, so their methods take a non-null client.
- **Read and no-op Update.** A Read that sends nothing, and an Update that
  only stores the plan, is `Framework.Echo`. Its partner is
  `Framework.EchoKeepsPersisted`: a refresh after a successful write keeps
  the written state.
- **Positional import.** Positional IDs are imported with
  `Framework.ImportPassthrough`: the ID is copied into `id` and never parsed.
  What makes that sufficient is that each positional ID determines what it
  was built from: the `*IdInjective` lemmas (`BlockResource.BlockIdInjective`,
  `FillResource.FillIdInjective` and the others) are its partner.
- **Attributes.** Framework attribute values are `Attr<T> = Null | Unknown |
  Known(v)`. `ValueString` of a null or unknown value is `""`.
- **Persisted state.** `Framework.Persisted` is the host's rule: a state
  written together with an error is not kept.
- **Strings.** `Strings` holds Go's `strings.TrimSpace` (with the
  `unicode.IsSpace` set), an ASCII `strings.ToLower`, `%d` and `%t`
  printing, 64-bit `strconv.Atoi`, and `strings.SplitN(s, sep, 3)`.
- **applyTeamOptions.** `TeamResource.OptionSteps` lists the five guarded
  calls of applyTeamOptions as `Step`s, each present exactly when its
  option is set. `Remote.IssueSteps` issues them in order and stops at the
  first failure. The loop in `IssueSteps` is a modelling device: it is
  equivalent to the five consecutive `if` blocks of the source.
- **Membership kind.** In team_member_resource.go the kind is a Go string.
  Here it is the datatype `TeamMemberResource.Kind`. Create's default branch
  ("Unknown membership kind."), which the validator never reaches, therefore
  has no counterpart.
- **pickTeamMemberTarget.** `PickTarget` returns `None` where the source
  returns `("", "")`.
- **Diagnostics.** A diagnostic keeps its summary and a fixed wording of its
  detail. The values the source interpolates with `%q`/`%s`, and the
  client's error text, are dropped.

## Model

| member | source | states |
|---|---|---|
| Remote.Transport.Call | internal/provider/block_resource.go:116-120 | a client call is appended to the log, and it fails exactly when the server oracle says so at that log position |
| Remote.Transport.Query | internal/provider/gamerule_resource.go:134-144 | a client query is appended to the log; when it succeeds it returns the server's reply at that position |
| Remote.RunStepsSends | internal/provider/team_resource.go:275-302 | running guarded steps sends a prefix of them; every step before the last sent one succeeded; an error (the failed step's wording) is returned exactly when not all steps were sent and succeeded |
| Remote.IssueSteps | internal/provider/team_resource.go:275-302 | issuing steps in order until the first failure grows the log by exactly the commands RunSteps sends, and returns its error |
| Framework.EchoKeepsPersisted | internal/provider/team_member_resource.go:163-179 | a Read that sends nothing, run on a state the host kept, keeps that state unchanged and reports nothing, so a refresh after a successful Create or Update shows no drift; without a client it keeps nothing and reports the missing client |
| Framework.TripleThenRest | internal/provider/block_resource.go:122 | three `%d` numbers joined by a non-digit separator, followed by text that does not start with a digit, determine the numbers and the text |
| Framework.PrefixedCoordinates | internal/provider/chest_resource.go:167 | a prefix followed by `x-y-z` coordinates determines the position and what follows |
| Framework.JoinedCoordinates | internal/provider/fill_resource.go:162-167 | two coordinate triples joined by `->` determine both corners |
| Framework.TripleAvoids | internal/provider/fill_resource.go:162-167 | printed coordinates contain no character except digits, `-` and the separator |
| Strings.TrimLeftDropsSpace | internal/provider/op_resource.go:91-95 | trimming on the left drops exactly a prefix of white space and leaves text that starts with a non-space |
| Strings.TrimRightDropsSpace | internal/provider/op_resource.go:91-95 | trimming on the right drops exactly a suffix of white space and leaves text that ends with a non-space |
| Strings.TrimSpaceIsSlice | internal/provider/op_resource.go:91-95 | TrimSpace returns a contiguous slice of its input with no white space at either end |
| Strings.TrimSpaceIdempotent | internal/provider/op_resource.go:169-177 | trimming twice is trimming once |
| Strings.TrimSpaceKeeps | internal/provider/gamemode_resource.go:246-264 | text with no white space at either end is left unchanged by TrimSpace |
| Strings.TrimSpaceBlank | internal/provider/team_resource.go:121-125 | TrimSpace is empty exactly when the text is all white space |
| Strings.ToLowerChars | internal/provider/sheep_resource.go:139 | lower-casing maps every character in place, by itself |
| Strings.NatToString | internal/provider/entity_resource.go:125 | `%d` of a natural number is a non-empty run of decimal digits |
| Strings.DigitsValueOfNat | internal/provider/gamerule_resource.go:99 | reading back the digits `%d` prints gives the number printed |
| Strings.IntToStringInjective | internal/provider/entity_resource.go:125 | different integers print differently with `%d` |
| Strings.IntThenRest | internal/provider/entity_resource.go:125 | a printed integer followed by text not starting with a digit determines both |
| Strings.IntThenSeparator | internal/provider/entity_resource.go:125 | a printed integer followed by a non-digit separator determines the integer and what follows the separator |
| Strings.IntToStringAvoids | internal/provider/fill_resource.go:162-167 | a printed integer holds only digits and a leading `-` |
| Strings.Atoi | internal/provider/gamerule_resource.go:96-115 | strconv.Atoi accepts only an optional sign followed by one or more digits, and only 64-bit values |
| Strings.AtoiOfIntToString | internal/provider/gamerule_resource.go:96-115 | Atoi reads back every printed 64-bit integer |
| Strings.IndexOf | internal/provider/team_member_resource.go:305-311 | the position found is the first occurrence of the separator, and none is found when it does not occur |
| Strings.SplitN3 | internal/provider/team_member_resource.go:305-311 | strings.SplitN(s, sep, 3) gives one to three parts that join back to s; a part before the last never contains sep, and fewer than three parts means sep does not occur in the last one |
| Strings.SplitN3OfJoin | internal/provider/team_member_resource.go:141 | splitting `a|b|c` gives `[a, b, c]` when a and b contain no `|`, whatever c contains |
| Strings.AfterLastOf | internal/provider/fill_resource.go:162-167 | the text after the last separator of `a|t`, where t has no separator, is t |
| Strings.SplitAtLast | internal/provider/fill_resource.go:162-167 | a field, a separator and a separator-free field are split back at that separator only |
| BedResource.BedOffset | internal/provider/bed_resource.go:246-259 | north, south, east and west are valid with z−1, z+1, x+1 and x−1; the head is always a horizontal neighbour; any other facing is invalid with no offset |
| BedResource.HeadBesideFoot | internal/provider/bed_resource.go:145-148 | for every valid facing the head sits at the foot's height, orthogonally adjacent to it |
| BedResource.CreateRun | internal/provider/bed_resource.go:120-162 | an invalid direction is a validation error with no command; otherwise foot then head; a failed foot stops with the foot error; a failed head is followed by exactly one DeleteBlock at the foot and the head error; state (ID `bed-x-y-z-direction`) is written exactly when both parts succeed |
| BedResource.UpdateRun | internal/provider/bed_resource.go:180-217 | an invalid direction is a validation error with no command; otherwise foot then head, with no rollback when the head fails, and each failure reported with its own update error; the plan is written exactly when both succeed |
| BedResource.Removals | internal/provider/bed_resource.go:219-239 | Delete always removes the foot, and removes the head only when the stored direction is valid |
| BedResource.DeleteClearsBed | internal/provider/bed_resource.go:228-238 | Delete of a created bed removes exactly the two blocks Create placed |
| BedResource.BedIdInjective | internal/provider/bed_resource.go:155 | different positions or directions give different bed IDs |
| BedResource.Create | internal/provider/bed_resource.go:120-162 | the imperative Create sends exactly CreateRun's commands and returns its state and diagnostics |
| BedResource.Update | internal/provider/bed_resource.go:180-217 | the imperative Update sends exactly UpdateRun's commands and returns its state and diagnostics |
| BedResource.Delete | internal/provider/bed_resource.go:219-239 | Delete sends the removals, ignores their results and reports nothing |
| BlockResource.CreateRun | internal/provider/block_resource.go:107-129 | one CreateBlock(material, x, y, z); the state with ID `block-x-y-z` is kept exactly when it succeeds; a failure is reported as an error |
| BlockResource.UpdateRun | internal/provider/block_resource.go:147-167 | re-issues CreateBlock and keeps the plan, ID not recomputed, exactly when it succeeds |
| BlockResource.DeleteRun | internal/provider/block_resource.go:169-183 | one DeleteBlock(x, y, z); an error exactly when it fails |
| BlockResource.DeleteRemovesPlaced | internal/provider/block_resource.go:178-182 | Delete of a created block removes the block Create placed |
| BlockResource.BlockIdInjective | internal/provider/block_resource.go:122 | distinct positions give distinct block IDs |
| BlockResource.Create | internal/provider/block_resource.go:107-129 | the imperative Create sends exactly CreateRun's commands and returns its state and diagnostics |
| BlockResource.Update | internal/provider/block_resource.go:147-167 | the imperative Update matches UpdateRun |
| BlockResource.Delete | internal/provider/block_resource.go:169-183 | the imperative Delete matches DeleteRun |
| ChestResource.PlacementsShape | internal/provider/chest_resource.go:135-161 | single is one block at (x, y, z); double is left at (x, y, z) then right at (x+1, y, z); all share the material (`minecraft:trapped_chest` iff trapped) and the waterlogged flag; any other size places nothing |
| ChestResource.CreateRun | internal/provider/chest_resource.go:120-169 | an invalid size is a validation error with no command; a failed first block stops with the single-chest or left-half error; a failed right half is followed by exactly one DeleteBlock(x, y, z) and the right-half error; state (ID `chest-x-y-z`) is written exactly when every block succeeds |
| ChestResource.UpdateRun | internal/provider/chest_resource.go:189-236 | an invalid size is a validation error with no command; otherwise the same placements with no rollback, each failure reported with its own update error; the plan is written exactly when every block succeeds |
| ChestResource.Removals | internal/provider/chest_resource.go:253-260 | Delete removes (x, y, z), and also (x+1, y, z) for a double chest |
| ChestResource.DeleteClearsPlacements | internal/provider/chest_resource.go:238-261 | Delete of a created chest removes exactly the blocks Create placed |
| ChestResource.ChestIdInjective | internal/provider/chest_resource.go:167 | distinct positions give distinct chest IDs, which depend on the position only |
| ChestResource.Create | internal/provider/chest_resource.go:120-169 | the imperative Create sends exactly CreateRun's commands and returns its state and diagnostics |
| ChestResource.Update | internal/provider/chest_resource.go:189-236 | the imperative Update matches UpdateRun |
| ChestResource.Delete | internal/provider/chest_resource.go:238-261 | Delete sends the removals, ignores their results and never reports a diagnostic |
| DaylockResource.CreateRun | internal/provider/daylock_resource.go:72-101 | exactly one command, EnableDayLock when `enabled` is true and DisableDayLock otherwise; the state with ID `default` is kept exactly when it succeeds, and a failure is the "Failed to enable/disable daylock" error |
| DaylockResource.UpdateRun | internal/provider/daylock_resource.go:121-153 | the same single switch and the same failure error; an existing ID is kept and `default` is set only when the ID is null or unknown |
| DaylockResource.DeleteRun | internal/provider/daylock_resource.go:155-167 | always DisableDayLock; a failure is a warning, never an error |
| DaylockResource.ImportState | internal/provider/daylock_resource.go:169-176 | only the untrimmed ID `default` is accepted, setting only the ID; anything else is an import error |
| DaylockResource.ImportOfCreated | internal/provider/daylock_resource.go:170-175 | the ID Create writes is accepted by Import |
| DaylockResource.Create | internal/provider/daylock_resource.go:72-101 | the imperative Create matches CreateRun |
| DaylockResource.Update | internal/provider/daylock_resource.go:121-153 | the imperative Update matches UpdateRun |
| DaylockResource.Delete | internal/provider/daylock_resource.go:155-167 | the imperative Delete matches DeleteRun |
| EntityResource.CreateRun | internal/provider/entity_resource.go:109-133 | one CreateEntity(type, `x y z`, token); the token becomes the ID, kept exactly when the summon succeeds |
| EntityResource.DeleteRun | internal/provider/entity_resource.go:171-191 | DeleteEntity(type, `x y z`, stored ID); an error exactly when it fails |
| EntityResource.DeleteTargetsSummoned | internal/provider/entity_resource.go:186-190 | Delete targets the type, position text and tag Create summoned |
| EntityResource.PositionTextInjective | internal/provider/entity_resource.go:125 | the `x y z` text determines the position |
| EntityResource.Create | internal/provider/entity_resource.go:109-133 | the imperative Create matches CreateRun |
| EntityResource.Delete | internal/provider/entity_resource.go:171-191 | the imperative Delete matches DeleteRun |
| FillResource.CreateRun | internal/provider/fill_resource.go:137-170 | one FillBlock(material, start, end); the state with ID `material|sx,sy,sz->ex,ey,ez` is kept exactly when it succeeds |
| FillResource.UpdateRun | internal/provider/fill_resource.go:190-223 | sends exactly the FillBlock Create sends and keeps exactly the state Create keeps (the ID recomputed in the same format); a failure is reported as "Unable to update filled region", a success reports nothing |
| FillResource.DeleteRun | internal/provider/fill_resource.go:225-249 | fills the stored region with `minecraft:air`; an error exactly when it fails |
| FillResource.DeleteClearsFilled | internal/provider/fill_resource.go:240-248 | Delete fills with air exactly the region Create filled |
| FillResource.FillIdInjective | internal/provider/fill_resource.go:162-167 | the fill ID determines material and both corners, even for a material containing `|` |
| FillResource.CornersAvoidBar | internal/provider/fill_resource.go:162-167 | the corners part of the ID contains no `|` |
| FillResource.CornersInjective | internal/provider/fill_resource.go:162-167 | the corners part determines both corners |
| FillResource.Create | internal/provider/fill_resource.go:137-170 | the imperative Create matches CreateRun |
| FillResource.Update | internal/provider/fill_resource.go:190-223 | the imperative Update matches UpdateRun |
| FillResource.Delete | internal/provider/fill_resource.go:225-249 | the imperative Delete matches DeleteRun |
| GamemodeResource.CreateRun | internal/provider/gamemode_resource.go:86-138 | an invalid trimmed lower-cased mode is a validation error with no command; otherwise read then write, and a failed read never blocks the write; a failed write is the default or player set error; the state is kept exactly when the write succeeds, with ID `default` or `player:<name>` and the read's non-empty reply (else `""`) as snapshot |
| GamemodeResource.UpdateRun | internal/provider/gamemode_resource.go:158-210 | the same validation, read, write and set error; the snapshot moves to the fresh read only when it succeeded and was non-empty, else the stored one is kept |
| GamemodeResource.DeleteRun | internal/provider/gamemode_resource.go:212-243 | a blank trimmed snapshot sends nothing; otherwise the snapshot is written back to the default or the player; a failure is the default or player "Restore Warning", never an error |
| GamemodeResource.CreateThenDeleteRestores | internal/provider/gamemode_resource.go:227-242 | a resource created over a server that reported a mode restores that mode, to the same target, on delete |
| GamemodeResource.NoSnapshotNoRestore | internal/provider/gamemode_resource.go:227-242 | without a snapshot, Delete sends nothing and reports nothing |
| GamemodeResource.ImportState | internal/provider/gamemode_resource.go:245-265 | an empty trimmed ID is an error with no state; `default` sets only the ID; `player:<name>` also sets the player; anything else is an error, so nothing is kept |
| GamemodeResource.ImportOfCreatedId | internal/provider/gamemode_resource.go:107-126 | the ID Create writes imports again with the same ID and the same target |
| GamemodeResource.ImportOfGamemodeId | internal/provider/gamemode_resource.go:246-264 | `default` and `player:<trimmed name>` import as the target they name |
| GamemodeResource.DefaultIdImports | internal/provider/gamemode_resource.go:252-256 | `default` imports as the server default with no other attribute |
| GamemodeResource.PlayerIdImports | internal/provider/gamemode_resource.go:258-261 | `player:<name>` imports with player = name |
| GamemodeResource.PlayerIdFacts | internal/provider/gamemode_resource.go:258-261 | `player:<trimmed name>` is its own trim, is not `default` and has the player prefix |
| GamemodeResource.PlayerIdShape | internal/provider/gamemode_resource.go:258-261 | `player:<name>` is not `default`, has the prefix and yields the name after it |
| GamemodeResource.PlayerIdKeeps | internal/provider/gamemode_resource.go:246-264 | prefixing a trimmed non-empty name keeps it trimmed |
| GamemodeResource.ImportOfPlayerId | internal/provider/gamemode_resource.go:258-261 | a trimmed `player:` ID imports as that player |
| GamemodeResource.Create | internal/provider/gamemode_resource.go:86-138 | the imperative Create matches CreateRun |
| GamemodeResource.Update | internal/provider/gamemode_resource.go:158-210 | the imperative Update matches UpdateRun |
| GamemodeResource.Delete | internal/provider/gamemode_resource.go:212-243 | the imperative Delete matches DeleteRun |
| GameruleResource.Classify | internal/provider/gamerule_resource.go:96-115 | an integer wins whenever Atoi accepts the text; only then is the lower-cased text compared with `true` and `false`; anything else is invalid |
| GameruleResource.ClassifyPrinted | internal/provider/gamerule_resource.go:96-115 | every printed 64-bit integer is sent as that integer |
| GameruleResource.ClassifyBoolWord | internal/provider/gamerule_resource.go:105-107 | `true` and `false` in any letter case are sent as that boolean |
| GameruleResource.WriteRun | internal/provider/gamerule_resource.go:96-115 | an invalid value is an "Invalid Gamerule Value" error with no command; otherwise one typed set command for the trimmed rule name, a failure is the "Unable to set gamerule" error, and the state is kept exactly when it succeeds |
| GameruleResource.CreateRun | internal/provider/gamerule_resource.go:81-119 | the invalid-value error with no command, or one typed set of the trimmed rule; a failed set is the "Unable to set gamerule" error; on success the plan is kept with the trimmed name as ID |
| GameruleResource.UpdateRun | internal/provider/gamerule_resource.go:147-184 | the same validation, set command and set error as Create; on success the plan is kept as it is, ID included |
| GameruleResource.ReadRun | internal/provider/gamerule_resource.go:121-145 | one query; the value is replaced by the trimmed reply; a failure is an error and no state |
| GameruleResource.DeleteRun | internal/provider/gamerule_resource.go:186-205 | ResetGameRuleToDefault; a failure is only a warning |
| GameruleResource.ImportRun | internal/provider/gamerule_resource.go:207-230 | one query; id = name = trimmed ID and value = trimmed reply; a failure is an import error |
| GameruleResource.LifecycleTargetsRule | internal/provider/gamerule_resource.go:117 | Read and Delete of a created rule address the rule Create wrote |
| GameruleResource.ReadBackClassifies | internal/provider/gamerule_resource.go:136-144 | a value read back whose trimmed text is the value written classifies as it was written |
| GameruleResource.ImportThenRead | internal/provider/gamerule_resource.go:216-229 | a refresh of an imported rule queries the same rule and changes only the value |
| GameruleResource.Create | internal/provider/gamerule_resource.go:81-119 | the imperative Create matches CreateRun |
| GameruleResource.Update | internal/provider/gamerule_resource.go:147-184 | the imperative Update matches UpdateRun |
| GameruleResource.Read | internal/provider/gamerule_resource.go:121-145 | the imperative Read matches ReadRun |
| GameruleResource.Delete | internal/provider/gamerule_resource.go:186-205 | the imperative Delete matches DeleteRun |
| GameruleResource.ImportState | internal/provider/gamerule_resource.go:207-230 | the imperative ImportState matches ImportRun |
| OpResource.CreateRun | internal/provider/op_resource.go:76-104 | a blank trimmed player is a validation error with no command; otherwise CreateOp(trimmed player); a failure is the "Unable to grant operator" error, and the state with ID = trimmed player is kept exactly when it succeeds |
| OpResource.DeleteRun | internal/provider/op_resource.go:142-166 | a blank trimmed player sends and reports nothing; otherwise RemoveOp, an error exactly when it fails |
| OpResource.ImportState | internal/provider/op_resource.go:168-177 | a non-blank trimmed ID becomes both id and player; a blank ID is an import error |
| OpResource.ImportOfCreated | internal/provider/op_resource.go:169-177 | importing the ID Create wrote restores the state and revokes the same player on delete |
| OpResource.Create | internal/provider/op_resource.go:76-104 | the imperative Create matches CreateRun |
| OpResource.Delete | internal/provider/op_resource.go:142-166 | the imperative Delete matches DeleteRun |
| SheepResource.CreateRun | internal/provider/sheep_resource.go:122-146 | one CreateSheep at `x y z` with the lower-cased colour, the sheared flag and the token as tag; the token becomes the ID, kept exactly when it succeeds |
| SheepResource.DeleteRun | internal/provider/sheep_resource.go:184-204 | DeleteEntity(`minecraft:sheep`, position, stored ID); an error exactly when it fails |
| SheepResource.DeleteTargetsSummoned | internal/provider/sheep_resource.go:199-203 | Delete targets the position text and tag Create summoned |
| SheepResource.Create | internal/provider/sheep_resource.go:122-146 | the imperative Create matches CreateRun |
| SheepResource.Delete | internal/provider/sheep_resource.go:184-204 | the imperative Delete matches DeleteRun |
| StairsResource.CreateRun | internal/provider/stairs_resource.go:128-159 | one CreateStairs carrying material, position, facing, half, shape and waterlogged unchanged; the state with ID `stairs-x-y-z` is kept exactly when it succeeds |
| StairsResource.UpdateRun | internal/provider/stairs_resource.go:179-209 | re-issues the same CreateStairs and keeps the plan, ID included, exactly when it succeeds |
| StairsResource.DeleteRun | internal/provider/stairs_resource.go:211-231 | DeleteBlock(x, y, z); an error exactly when it fails |
| StairsResource.DeleteRemovesPlaced | internal/provider/stairs_resource.go:226-230 | Delete removes the block Create placed |
| StairsResource.StairsIdInjective | internal/provider/stairs_resource.go:157 | distinct positions give distinct stairs IDs |
| StairsResource.Create | internal/provider/stairs_resource.go:128-159 | a missing client is an error with no command; otherwise the imperative Create matches CreateRun |
| StairsResource.Update | internal/provider/stairs_resource.go:179-209 | the imperative Update matches UpdateRun |
| StairsResource.Delete | internal/provider/stairs_resource.go:211-231 | the imperative Delete matches DeleteRun |
| TeamResource.StringValuesEqualProperties | internal/provider/team_resource.go:254-262 | both null is equal; an unknown equals nothing; otherwise the texts are compared, so null equals `""`; symmetric and transitive |
| TeamResource.OptionStep | internal/provider/team_resource.go:275-302 | an option's step is sent exactly when the option is set, and fails with that option's wording |
| TeamResource.PieceOrdered | internal/provider/team_resource.go:275-302 | an optional step in front of steps of higher rank keeps the option order |
| TeamResource.PieceSends | internal/provider/team_resource.go:275-302 | in front of higher-ranked steps, a command of rank k is sent only by the step of rank k |
| TeamResource.Chain | internal/provider/team_resource.go:275-302 | the five optional steps in rank order are ordered and all addressed to the team |
| TeamResource.ChainSends | internal/provider/team_resource.go:275-302 | among the five optional steps, an option command is sent exactly when its own step sends it |
| TeamResource.OptionStepsPieces | internal/provider/team_resource.go:275-302 | the option steps are colour, friendly fire, see-invisibles, name-tag visibility and collision rule, in that order |
| TeamResource.OptionStepsShape | internal/provider/team_resource.go:275-302 | applyTeamOptions tries the lower-cased colour, friendly fire, see-invisibles, name-tag visibility and collision rule in that fixed order, each exactly when set (texts also non-blank), all addressed to the team |
| TeamResource.CreateRunSplit | internal/provider/team_resource.go:134-144 | Create of a named team is CreateTeam and then, only when that succeeded, applyTeamOptions |
| TeamResource.CreateRunSends | internal/provider/team_resource.go:106-146 | a blank name is a validation error with no command; otherwise the commands sent are a prefix of CreateTeam (with the resolved display name) followed by the option steps; no DeleteTeam is ever sent; the state with ID = trimmed name is kept exactly when every command succeeded, and a failure is one error |
| TeamResource.StepsOutcome | internal/provider/team_resource.go:134-144 | a run of steps that keeps a state when no step failed sends every step on success, and on failure stops right after the first failed step, whose wording is the one error |
| TeamResource.CreateRunStops | internal/provider/team_resource.go:122-144 | Create of a named team sends CreateTeam and every option step when it succeeds; when it fails, every earlier command succeeded, the last one sent failed, and its wording ("Unable to create team" or the option's) is the one error |
| TeamResource.CompensationFree | internal/provider/team_resource.go:134-144 | no prefix of CreateTeam followed by option steps contains a DeleteTeam |
| TeamResource.UpdateRunIsSteps | internal/provider/team_resource.go:188-208 | Update of a named team is one run of the display step (when changed) followed by the options |
| TeamResource.OptionStepsNoDisplay | internal/provider/team_resource.go:275-302 | no option step sets the display name |
| TeamResource.UpdateRunSends | internal/provider/team_resource.go:166-211 | a blank name is a validation error with no command; the commands sent are a prefix of the display step and the option steps, and the display name is sent first exactly when it differs by stringValuesEqual; the plan is kept, with ID = name set only when the ID is null or unknown, exactly when every command succeeded |
| TeamResource.UpdateRunStops | internal/provider/team_resource.go:188-208 | Update of a named team re-sends every step (the display name when changed, then all options) when it succeeds; when it fails, every earlier command succeeded, the last one sent failed, and its wording is the one error |
| TeamResource.DeleteRun | internal/provider/team_resource.go:213-241 | DeleteTeam of the trimmed name, else the trimmed ID; both empty is an error with no command; a failure is an error |
| TeamResource.ImportState | internal/provider/team_resource.go:243-252 | a non-blank trimmed ID sets id = name = that value; a blank ID is an import error |
| TeamResource.DeleteRemovesCreated | internal/provider/team_resource.go:228-240 | Delete of a created team removes the team Create made |
| TeamResource.ImportThenDelete | internal/provider/team_resource.go:243-252 | an imported team is deleted under the name it was imported by |
| TeamResource.ApplyTeamOptions | internal/provider/team_resource.go:275-302 | the imperative applyTeamOptions grows the log by exactly the option steps' run and returns its error |
| TeamResource.Create | internal/provider/team_resource.go:106-146 | the imperative Create matches CreateRun |
| TeamResource.Update | internal/provider/team_resource.go:166-211 | the imperative Update matches UpdateRun |
| TeamResource.Delete | internal/provider/team_resource.go:213-241 | the imperative Delete matches DeleteRun |
| TeamMemberResource.ParseKind | internal/provider/team_member_resource.go:233-243 | only `player`, `selector` and `entity` name a kind |
| TeamMemberResource.KindWordParses | internal/provider/team_member_resource.go:141 | every kind word parses back to its kind and contains no `|` |
| TeamMemberResource.WithField | internal/provider/team_member_resource.go:229-239 | import sets exactly the field of the kind and leaves the others |
| TeamMemberResource.CountTarget | internal/provider/team_member_resource.go:255-261 | one target check: a set target is counted and becomes the kind and value, otherwise nothing changes |
| TeamMemberResource.ValidateTeamMemberCreate | internal/provider/team_member_resource.go:248-284 | the counting validator returns exactly the membership or the error the reference Validation gives; on an error the team and value are blank |
| TeamMemberResource.ValidationErrors | internal/provider/team_member_resource.go:249-282 | a blank team, no target and more than one target each fail with their own text |
| TeamMemberResource.TwoEntries | internal/provider/team_member_resource.go:277-282 | two different set targets count as more than one |
| TeamMemberResource.ValidationExactlyOne | internal/provider/team_member_resource.go:248-284 | validation succeeds exactly when the trimmed team is non-blank and exactly one target is set, returning its kind and trimmed value |
| TeamMemberResource.PickTargetFirst | internal/provider/team_member_resource.go:286-303 | the pick is the first set target in the order player, selector, entity; nothing is picked exactly when none is set |
| TeamMemberResource.SplitMemberId | internal/provider/team_member_resource.go:141 | `team|kind|value` splits back into its three fields when the team has no `|` |
| TeamMemberResource.ParseIdOfMemberId | internal/provider/team_member_resource.go:305-311 | parsing a created ID gives back its kind and value |
| TeamMemberResource.CreateRun | internal/provider/team_member_resource.go:99-143 | a validation failure sends nothing and keeps nothing; otherwise exactly one join command of the kind, and the plan with ID `team|kind|value` is kept exactly when it succeeds |
| TeamMemberResource.DeleteRun | internal/provider/team_member_resource.go:181-219 | kind and value come from the state fields, else from the parsed ID; an empty value or an unknown kind sends nothing; otherwise exactly one leave command of the kind, an error exactly when it fails |
| TeamMemberResource.ImportState | internal/provider/team_member_resource.go:221-246 | fewer than three parts or an unknown kind is an import error with no state; otherwise id as given, team = part 1 and the kind's field = part 3 |
| TeamMemberResource.PickIsTheOnlyTarget | internal/provider/team_member_resource.go:286-303 | when exactly one target is set, it is the one picked |
| TeamMemberResource.PickOfValid | internal/provider/team_member_resource.go:196-218 | a validated plan picks its validated target, already trimmed and non-blank |
| TeamMemberResource.PickOfSingleTarget | internal/provider/team_member_resource.go:229-239 | an imported state with one trimmed, non-blank target picks that target |
| TeamMemberResource.BarInTeamSplitsEarly | internal/provider/team_member_resource.go:222-235 | the ID of team `a|player` with player `x` is `a|player|player|x`, which imports as team `a` with player `player|x`: the round trip needs a team without `|` |
| TeamMemberResource.CreateThenImport | internal/provider/team_member_resource.go:222-239 | when the team has no `|`, importing a created ID restores the ID and team and puts the value (which may contain `|`) in the kind's field |
| TeamMemberResource.CreateThenDeleteLeaves | internal/provider/team_member_resource.go:196-218 | Delete of a created membership leaves with the kind and value Create joined |
| TeamMemberResource.ImportThenDeleteLeaves | internal/provider/team_member_resource.go:196-218 | Delete of an imported membership leaves with the kind and value the ID names |
| TeamMemberResource.Create | internal/provider/team_member_resource.go:99-143 | the imperative Create matches CreateRun |
| TeamMemberResource.Delete | internal/provider/team_member_resource.go:181-219 | the imperative Delete matches DeleteRun |
| ZombieResource.CreateRun | internal/provider/zombie_resource.go:155-189 | one CreateZombie at the int64 position `x y z`, the token as tag, and is_baby, can_break_doors, can_pick_up_loot and persistence_required passed unchanged; the token becomes the ID, kept exactly when it succeeds |
| ZombieResource.DeleteRun | internal/provider/zombie_resource.go:227-247 | DeleteEntity(`minecraft:zombie`, position, stored ID); an error exactly when it fails |
| ZombieResource.DeleteTargetsSummoned | internal/provider/zombie_resource.go:242-246 | Delete targets the position text and tag Create summoned |
| ZombieResource.Create | internal/provider/zombie_resource.go:155-189 | the imperative Create matches CreateRun |
| ZombieResource.Delete | internal/provider/zombie_resource.go:227-247 | the imperative Delete matches DeleteRun |

## Left out

- The `internal/minecraft` client is not part of this model. Its command grammar and the RCON transport are abstract `Cmd` values, with a failure and reply oracle.
- `internal/provider/provider.go` is not part of this model: it reads environment variables, opens the connection and registers resources.
- `internal/provider/temp_resource.go` is not part of this model; every method panics.
- The Schema, Metadata and Configure methods are not modelled. Inputs are taken as already resolved by the host: defaults are applied and replacement decisions are made.
- The random token of entity, sheep and zombie (`uuid.NewString()`) is a parameter of Create.
- The zombie's `health` conversion from float64 to float32 is not modelled: it is floating point, and CreateZombie carries no health.
- Diagnostics keep a fixed detail text. The values interpolated with `%q`/`%s`/`%w` and the client's error text are dropped.
- Strings.ToLower: lower-cases ASCII letters only, not the full Unicode mapping of Go's `strings.ToLower`.
- Go `int` is taken to be 64 bits wide in `strconv.Atoi`; coordinates are Int32 or Int64 as the schema declares.
- Bed and block have no configured-client check. A nil client would panic in Go; here their methods require a client.
- Read of every resource except gamerule sends nothing; it is `Framework.Echo`, and no separate method is written.
- The no-op Update of entity, sheep, zombie, op and team member is also `Framework.Echo`, with no separate method.
- Positional and fill IDs are imported by passthrough only (`Framework.ImportPassthrough`); the code never parses them, so neither does the model.
- `StairsResource.DeleteRun` has the same shape as `BlockResource.DeleteRun`, and `ZombieResource.DeleteRun` the same shape as `SheepResource.DeleteRun`. The Go files repeat this code per resource, with their own error texts, and the model keeps one function per resource file on purpose.
- Create's "Unknown membership kind." branch in team_member_resource.go has no counterpart, because the `Kind` datatype leaves no other kind.
- The framework's own failures when getting or setting state are not modelled (`resp.Diagnostics.Append(req.Plan.Get(...))` and the like).
- Concurrency, the host's diffing and its replacement decisions are not modelled.
- The `*_test.go` files are not modelled: they are plan-only acceptance harnesses.
