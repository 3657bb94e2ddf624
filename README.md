# Write activity: format policy, collaboration session and toolbar mirrors

A Dafny model of the behaviour the Write activity (the AbiWord-based word
processor of the Sugar desktop) implements itself, around the embedded AbiWord
canvas it drives:

- **Document-format policy** (`AbiWordActivity.py`): which MIME types are
  edited as plain text, the hint `read_file` gives the engine, the type
  `write_file` saves as and records in the journal metadata (a new document
  becomes OpenDocument text, Word becomes RTF), and the plain-text summary of
  at most 3000 characters kept in `fulltext`.
- **Collaboration session** (`AbiWordActivity.py`): the `tube_id`, `joined` and
  `participants` fields and the handlers that change them. A tube is taken up
  only if none is held, it is a D-Bus tube of the AbiCollab service, and its
  initiator is among its D-Bus names. The engine is then told `joinTube` and
  the initiator (joiner) or `offerTube` (host), and every peer is announced
  with `buddyJoined` and recorded. Peers leaving are removed with `buddyLeft`.
- **Toolbar mirrors** (`widgets.py`): the font, font-size and style combo
  boxes and the alignment and list palettes. A user choice is sent to the
  engine. An engine report re-selects the entry with the `changed` handler
  blocked, so nothing is sent back. Unknown fonts and styles are appended
  after a single separator.

Modules, one concept each:

- `Wrappers`: Option.
- `Engine`: the canvas as a log of calls plus the document's text.
- `Seqs`: first-match search.
- `Collation`: Python string order and `sorted`.
- `MimePolicy`: pure format decisions.
- `Collaboration`: the session handlers as pure steps, with their lemmas.
- `Activity`: class `AbiWordActivity`, whose methods update the metadata and
  session fields in place and are proved to follow `MimePolicy` and
  `Collaboration`.
- `Combos`: classes `FontCombo`, `FontSizeCombo` and `StyleCombo`.
- `Palettes`: class `AbiPalette` and the alignment and list predicates.

Inputs from outside the activity are parameters:

- the MIME taxonomy `sugar.mime.get_mime_parents` (a function);
- the engine's font names and extracted text;
- the translation of style captions (a function);
- the tube announcements, each with the D-Bus names and address the channel
  reports for it;
- the membership lists.

Calls into the engine and onto the tubes channel are recorded in order.

Behaviour of the code that the model keeps:

- `_sharing_setup` resets `tube_id` to None each time it runs with a shared
  activity (AbiWordActivity.py:254).
- `AcceptDBusTube` is called for a local-pending tube before the initiator is
  looked for (AbiWordActivity.py:294-308), so a tube can be accepted on the
  channel and still not be taken up.
- `_on_members_changed` (AbiWordActivity.py:352) is not connected to any
  signal. It is modelled as a handler of its own.
- `_is_plain_text` checks the exception list against its argument, but the
  plain/CSV test and the parent lookup read `metadata['mime_type']`
  (AbiWordActivity.py:410-415). Both call sites pass that same metadata value,
  so `IsPlainText` is the one-argument form. `IsPlainTextAsWritten` keeps the
  two apart, and `ClassifierReadsStoredType` shows what the stored type
  decides if the two ever differ.

## Model

| member | source | states |
|---|---|---|
| `MimePolicy.IsPlainText` | AbiWordActivity.py:407-415 | application/rtf, text/rtf and text/html are never plain; any other type is plain exactly when it is text/plain or text/csv or has text/plain among its parents |
| `MimePolicy.RichTextWhateverParents` | AbiWordActivity.py:408-411 | the exception list wins even when the taxonomy declares text/plain as a parent |
| `MimePolicy.IsPlainTextAsWritten` | AbiWordActivity.py:407-415 | an argument on the exception list is never plain; a stored rich type without a text/plain parent is never plain |
| `MimePolicy.ClassifierReadsStoredType` | AbiWordActivity.py:410-415 | any two arguments off the exception list classify alike; with a stored type off the list this is the one-argument classifier; a stored rich type not passed as the argument is classified by its parents alone |
| `MimePolicy.LoadHint` | AbiWordActivity.py:377-382 | the load hint is text/plain exactly for plain types and empty otherwise |
| `MimePolicy.Substitute` | AbiWordActivity.py:392-399 | '' becomes OpenDocument text, application/msword becomes application/rtf, every other type is kept; the result is never '' or Word |
| `MimePolicy.PlanSave` | AbiWordActivity.py:387-402 | plain types save as text/plain and keep their recorded type; other types save as, and record, `Substitute` of their type, which is never '' or Word |
| `MimePolicy.SaveUsesRecordedType` | AbiWordActivity.py:388-402 | the engine is handed the recorded type, except on the plain path (text/plain, type kept) |
| `MimePolicy.SaveTwiceRecordsSameType` | AbiWordActivity.py:393-402 | a second save records the same type as the first |
| `MimePolicy.Summary` | AbiWordActivity.py:404-405 | the summary is the prefix of the text of length min(3000, length) |
| `Activity.AbiWordActivity.constructor` | AbiWordActivity.py:179-180 | a fresh session has no participants, is not joined and holds no tube |
| `Activity.AbiWordActivity.ReadFile` | AbiWordActivity.py:374-382 | one load_file call with the file URI and the policy's hint; metadata without a type raises before any call |
| `Activity.AbiWordActivity.WriteFile` | AbiWordActivity.py:384-405 | one save with the planned type, then get_content; the metadata records the planned type and the summary and nothing else changes |
| `Activity.AbiWordActivity.SharingSetup` | AbiWordActivity.py:244-256 | with a shared activity the tube id is cleared; without one nothing changes |
| `Activity.AbiWordActivity.Shared` | AbiWordActivity.py:232-242 | sets up and offers a tube under the AbiCollab service; without a shared activity it fails after the set-up |
| `Activity.AbiWordActivity.Joined` | AbiWordActivity.py:265-277 | with a shared activity: joined, no tube, ListTubes requested; otherwise nothing changes |
| `Activity.AbiWordActivity.DBusNamesChanged` | AbiWordActivity.py:336-350 | state and engine calls follow NamesChangedStep; the removed list is not read |
| `Activity.AbiWordActivity.NewTube` | AbiWordActivity.py:279-334 | state, engine calls and channel calls follow NewTubeStep |
| `Activity.AbiWordActivity.ListTubesReply` | AbiWordActivity.py:258-260 | state, engine calls and channel calls follow ListTubesStep, the listed tubes taken in order |
| `Activity.AbiWordActivity.MembersChanged` | AbiWordActivity.py:352-366 | state and engine calls follow MembersChangedStep |
| `Collaboration.AcceptsIffInitiatorPresent` | AbiWordActivity.py:284-308 | `Accepts`: a tube is taken up exactly when no tube is held, it is a D-Bus tube of the AbiCollab service, and some D-Bus name entry carries the initiator's handle |
| `Collaboration.NewTubeStepEffects` | AbiWordActivity.py:279-334 | `NewTubeStep`: the tube is held afterwards exactly when it is accepted; joined is kept; a local-pending D-Bus tube of the service is accepted on the channel while no tube is held, whatever its names |
| `Collaboration.ListTubesStep` | AbiWordActivity.py:258-260 | joined is kept; with a tube already held the whole batch does nothing |
| `Collaboration.InitiatorIndex` | AbiWordActivity.py:297-304 | the first D-Bus name entry carrying the initiator's handle, or -1 when none does |
| `Collaboration.NamesChangedStep` | AbiWordActivity.py:336-350 | tube id and joined kept, no channel call, one command per added name, no participant removed |
| `Collaboration.MembersChangedStep` | AbiWordActivity.py:352-366 | tube id and joined kept, no channel call, at most one command per removed handle |
| `Collaboration.MembersChangedMatchesDepartures` | AbiWordActivity.py:355-366 | for any batch, known, unknown and repeated handles mixed, the commands are one buddyLeft per first occurrence of a recorded handle, in batch order, with its recorded name |
| `Collaboration.DistinctDeparturesAnnounceEach` | AbiWordActivity.py:355-366 | for distinct recorded handles the reference departures are one buddyLeft per handle, the i-th naming the i-th handle's recorded name |
| `Collaboration.MembersChangedAnnouncesEach` | AbiWordActivity.py:355-366 | distinct recorded handles: exactly one buddyLeft each, in order, the i-th with the i-th handle's recorded name |
| `Collaboration.NamesChangedAnnouncesEach` | AbiWordActivity.py:345-349 | the i-th command is buddyJoined with the i-th added bus name |
| `Collaboration.NamesChangedKeys` | AbiWordActivity.py:345-350 | recorded handles are the old ones plus every added handle |
| `Collaboration.NamesChangedLastNameWins` | AbiWordActivity.py:345-350 | an added handle maps to the bus name of its last entry |
| `Collaboration.NamesChangedKeepsOthers` | AbiWordActivity.py:345-350 | a handle that was not added keeps its recorded name |
| `Collaboration.RejectedTubeChangesNothing` | AbiWordActivity.py:284-308 | a tube not accepted changes no session field and sends no engine command; with a tube held, no channel call either |
| `Collaboration.AcceptedTube` | AbiWordActivity.py:310-334 | joiners send joinTube then buddyJoined(initiator), hosts only offerTube; then the tube is held and each name is announced in order and recorded; the channel sees AcceptDBusTube exactly when the tube was local-pending |
| `Collaboration.MissingInitiatorKeepsSlotFree` | AbiWordActivity.py:297-308 | a tube whose initiator has no D-Bus name leaves the session unchanged and sends no command, though a local-pending one is still accepted on the channel; a later valid tube is still accepted |
| `Collaboration.SecondTubeIgnored` | AbiWordActivity.py:284-286 | once a tube is held, any further announcement does nothing at all |
| `Collaboration.RejectedBatchChangesNothing` | AbiWordActivity.py:258-260 | a listed batch without an acceptable tube changes nothing and sends no command |
| `Collaboration.FirstValidTubeWins` | AbiWordActivity.py:258-334 | over a listed batch the session and the commands are those of the first acceptable tube alone |
| `Collaboration.MembersChangedRemoves` | AbiWordActivity.py:355-360 | the participants lose exactly the removed handles |
| `Collaboration.UnknownMembersIgnored` | AbiWordActivity.py:356-360 | unrecorded handles produce no command and no change |
| `Collaboration.RemoveTwiceLeavesOnce` | AbiWordActivity.py:355-366 | removing a handle twice sends a single buddyLeft with its recorded name, or nothing if it was unknown |
| `Collaboration.MembersChangedIdempotent` | AbiWordActivity.py:355-366 | delivering the same removals again changes nothing and sends nothing |
| `Seqs.FirstIndex` | widgets.py:51-54 | the first position holding the value, or -1 when none does |
| `Collation.LessEqTotal` | widgets.py:31 | any two strings are ordered one way or the other |
| `Collation.LessEqAntisymmetric` | widgets.py:31 | strings ordered both ways are equal |
| `Collation.Sort` | widgets.py:31 | the sorted font list is ordered and a permutation of the engine's names |
| `Combos.FontCombo.constructor` | widgets.py:27-40 | the list is the sorted engine fonts, one row each; the last Times New Roman entry is active, and each Times New Roman entry sent set_font_name once |
| `Combos.FontCombo.FillRows` | widgets.py:35-38 | one row per font; the active entry is the last Times New Roman |
| `Combos.FontCombo.OnChanged` | widgets.py:42-45 | a selected entry is sent with set_font_name; no selection sends nothing |
| `Combos.FontCombo.SetActive` | widgets.py:75-78 | selecting a different entry runs the changed handler unless it is blocked |
| `Combos.FontCombo.UserSelect` | widgets.py:42-45 | a user's new choice sends exactly that font |
| `Combos.FontCombo.OnFontFamily` | widgets.py:47-78 | afterwards the active entry is the reported font: the first match, or a new last entry after a separator added once; the old list is a prefix; no command is sent |
| `Combos.DecimalValue` | widgets.py:104 | int() of a string of n decimal digits is below 10 to the n |
| `Combos.SizeValue` | widgets.py:84-85 | int() of each listed size is its point size |
| `Combos.FontSizeCombo.constructor` | widgets.py:81-94 | '12' (index 4) is active and sent once with set_font_size |
| `Combos.FontSizeCombo.OnChanged` | widgets.py:96-100 | a selected size is sent with set_font_size |
| `Combos.FontSizeCombo.SetActive` | widgets.py:104-107 | selecting a different entry runs the changed handler unless it is blocked |
| `Combos.FontSizeCombo.UserSelect` | widgets.py:96-100 | a user's new choice sends exactly that size |
| `Combos.FontSizeCombo.OnFontSize` | widgets.py:102-108 | the first entry of the reported size becomes active; an unlisted size changes nothing; no command is sent |
| `Combos.BuiltinStyles` | widgets.py:114-125 | the twelve built-in styles by internal name, captions from the translation |
| `Combos.NormalisedStyle` | widgets.py:144-145 | None and 'None' become Normal; other names are kept |
| `Combos.NormalFoundAmongBuiltins` | widgets.py:114-151 | behind the built-in styles Normal is always found at index 10 |
| `Combos.StyleCombo.constructor` | widgets.py:111-136 | the built-in styles are listed, Normal (index 10) is active and sent once with set_style |
| `Combos.StyleCombo.OnChanged` | widgets.py:138-141 | the selected style's internal name, not its caption, is sent with set_style |
| `Combos.StyleCombo.SetActive` | widgets.py:174-177 | selecting a different entry runs the changed handler unless it is blocked |
| `Combos.StyleCombo.UserSelect` | widgets.py:138-141 | a user's new choice sends exactly that style's internal name |
| `Combos.StyleCombo.OnStyleName` | widgets.py:143-177 | the active style is the normalised report: the first match, or a new last entry after a separator added once; None and 'None' never grow the list; no command is sent |
| `Palettes.Holds` | widgets.py:200-242 | a None style satisfies only the `not in` predicate; a flag satisfies the `not in` predicate, and the identity predicate exactly when it is true |
| `Palettes.Dispatch` | widgets.py:190-193 | when no callback of the signal fires the active button stays; otherwise the last button whose callback fires ends active |
| `Palettes.DispatchSelectsOnlyHolder` | widgets.py:190-193 | when exactly one callback of a signal fires, its button ends active |
| `Palettes.DispatchKeepsActive` | widgets.py:190-193 | when no callback fires, the active button stays |
| `Palettes.ListButtonFor` | widgets.py:215-242 | for every style exactly one of the six list predicates holds: list-none unless the style is a list style |
| `Palettes.ListsActivateExactlyOne` | widgets.py:211-242 | every style-name report activates exactly that one list button |
| `Palettes.AlignmentFollowsFlag` | widgets.py:195-209 | an alignment signal reporting true activates its button; false leaves the group unchanged |
| `Palettes.AbiPalette.constructor` | widgets.py:180-182 | an empty radio group |
| `Palettes.AbiPalette.Alignment` | widgets.py:196-209 | the four justification buttons, left active |
| `Palettes.AbiPalette.Lists` | widgets.py:212-242 | the six list buttons, list-none active |
| `Palettes.AbiPalette.Append` | widgets.py:184-188 | the button joins the group; the first one starts active |
| `Palettes.AbiPalette.OnSignal` | widgets.py:190-192 | the button is activated only when its predicate holds |
| `Palettes.AbiPalette.Emit` | widgets.py:193 | the group ends as the connected callbacks, run in order, leave it |

## Left out

- Toolbar and widget construction, icons, tooltips and translations of labels (AbiWordActivity.py:60-162): UI assembly with no logic. Style captions come from a translation function parameter.
- `get_preview` (AbiWordActivity.py:214-230): page rendering and PNG encoding happen in a foreign graphics library.
- The image chooser, the floating-image check box and keybinding loading (AbiWordActivity.py:198-205, 417-428): engine and UI calls with no logic of their own.
- The default font of new documents (AbiWordActivity.py:206-212): Sans is set when the selected text has length 0; it is a single engine call.
- `size_allocate_cb` (AbiWordActivity.py:163-164): event-loop scheduling.
- Telepathy mechanics: signal connections, D-Bus name and address lookups, and asynchronous delivery. `GetDBusNames` and `GetDBusTubeAddress` answers are fields of the tube announcement. `OfferDBusTube`, `AcceptDBusTube` and `ListTubes` are recorded calls. The `ListTubes` error callback and the buddy joined/left callbacks only log.
- The `params` argument of `_new_tube_cb` is never read.
- Logging everywhere: it has no effect on behaviour.
- `__map_event_cb` (AbiWordActivity.py:166-196) calls `self._joined_cb()` with no argument, although `_joined_cb` takes one. Python would raise a TypeError there when the activity is already shared. Only the session fields that handler initialises are modelled.
- What selecting a palette button does to the engine: the user path (`clicked_cb`, e.g. `align_left`) and whether an engine-driven `set_active(True)` re-runs it live in the toolkit's RadioPalette, which is not part of this model.
- `MimePolicy.Summary`: the Python 2 source slices the text returned by the engine; the model counts characters, not bytes of an encoding.
- `Combos.FontSizeCombo.OnFontSize`: the reported size is taken as an integer. `int()` of a string that is not a whole number would raise, and that case is not modelled.
- Combo rows: GTK's tree model is reduced to its row count `rows`, and that count always equals the length of the entry list.
