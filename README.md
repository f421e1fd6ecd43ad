# StreamDock backend common helpers, modelled in Dafny

This project models two files of the StreamDock backend's `app.common` package:

- **Timestamped documents** (`backend/app/common/models.py`):
  - `BaseDocument.save` stamps a Beanie document before it writes the document.
    - When `created_at` is declared and still unset, the save sets it. It also records the user id in `created_by` when that field is declared and the user id is truthy. This happens on the first save of a document whose four audit fields start unset.
    - On every save of a document that declares `updated_at`, it refreshes `updated_at`. It overwrites `updated_by` only when that field is declared and a truthy user id is given; otherwise `updated_by` keeps its old value.
    - A CreationMixin document built with its defaults already has `created_at` set, so `save` never records its creator (see "## Findings").
  - `CreationMixin.ensure_created` sets only a missing `created_at` and never writes `created_by`.
  - `UpdationMixin.touch` refreshes `updated_at` and overwrites `updated_by` only for a truthy user id.
  - A document may declare any subset of the four audit fields `created_at`, `created_by`, `updated_at` and `updated_by`. `save` checks with `hasattr` which ones exist.
- **Response and console helpers** (`backend/app/common/utils.py`):
  - `success_response` builds the JSON body of a successful API call.
  - `ASCIIART.box` frames a block of text between two horizontal borders and two vertical bars.

Module layout:

| module | file | contents |
|---|---|---|
| `Wrappers` | `wrappers.dfy` | `Option` and `Result` |
| `Stamping` | `stamping.dfy` | The audit fields as a value (`Stamps`) and which of them a document declares (`Schema`). What one save does to them (`Stamped`), and what the two mixin methods do. What a sequence of saves does (`Run`), with lemmas about write-once creation, last-writer updates and time order. |
| `Documents` | `documents.dfy` | The document as a `class` whose audit fields the methods update in place. Its storage write is abstract: a list of write attempts plus the last stamps the store accepted. |
| `Text` | `text.dfy` | The Python `str` operations `box` relies on: `isspace`, `rstrip`, `split("\n")`, `ljust` and `s * n`. |
| `Responses` | `responses.dfy` | `success_response` as a finite map. |
| `AsciiBox` | `ascii_box.dfy` | The lines `box` prints: a specification (`Layout`) with lemmas about it, and a loop method (`Box`) proved equal to it. |

Modelling choices:

- **Truthiness.** Python truthiness is written out.
  - A user id is truthy when it is present and non-empty (`Stamping.Truthy`).
  - A `datetime` is always truthy, so `not created_at` holds only for `None`.
- **Clock.** `utc_now()` becomes two `Instant` parameters of `Stamped`:
  - `clockAtCreate` is the reading taken at line 71;
  - `clockAtUpdate` is the reading taken at line 77.
  - They are two readings, so nothing forces them to be equal.
- **Storage write.** `super().save()` becomes `Documents.Document.StorageWrite`. Whether the store accepts the write is a parameter.
- **Output of `box`.** `box` returns the lines it would print, in printing order. Line 99's `ValueError` becomes `Failure(EmptyMaxArg)`.

## Model

| member | source | states |
|---|---|---|
| Stamping.Truthy | backend/app/common/models.py:72-78 | Defines Python truthiness of `user_id` as present and non-empty, so both `None` and `""` mean no actor. `Documents.SaveWithEmptyActor` and `Stamping.RunWithoutActors` use it. |
| Stamping.StampCreation | backend/app/common/models.py:68-73 | The creation block never touches the update fields. It leaves created_at set whenever created_at is declared. |
| Stamping.StampUpdate | backend/app/common/models.py:76-79 | The update block never touches the creation fields. It sets updated_at to its clock reading whenever updated_at is declared. |
| Stamping.Stamped | backend/app/common/models.py:67-79 | One save, as lines 67-79 describe it. created_at is write-once: once set, neither it nor created_by changes. An empty created_at is set to the creation clock only if the field is declared. created_by changes exactly when both creation fields are declared, created_at was empty, and a truthy, different user id is given; it then becomes that id. updated_at is set to the update clock whenever it is declared. updated_by changes only when both update fields are declared and the user id is truthy, and then takes that id. Without a truthy user id neither `*_by` field changes. Undeclared fields stay unset. |
| Stamping.AfterEnsureCreated | backend/app/common/models.py:21-24 | `ensure_created` sets a missing created_at to now. It changes nothing when created_at is already set, and never touches the other three fields. |
| Stamping.AfterTouch | backend/app/common/models.py:33-37 | `touch` sets updated_at to now. updated_by becomes the user id when it is truthy and is kept otherwise. The creation fields are untouched. |
| Stamping.EnsureCreatedIdempotent | backend/app/common/models.py:21-24 | Calling `ensure_created` twice is the same as calling it once, whatever the second clock reads. |
| Stamping.SaveAgreesWithMixins | backend/app/common/models.py:21-37 | On a document with all four fields, `save` sets created_at as `ensure_created` would, and updated_at and updated_by as `touch` would. |
| Stamping.Run | backend/app/common/models.py:61-79 | Defines successive `save` calls, applied in order starting from the given fields. `Stamping.RunSnoc` splits a run at its last save, and the other `Run*` lemmas state what a run keeps and records. |
| Stamping.RunSnoc | backend/app/common/models.py:61-79 | A sequence of saves followed by one more save is that one save applied to the sequence's result. |
| Stamping.RunKeepsCreation | backend/app/common/models.py:68-73 | Once created_at is set, or when it is not declared, no sequence of saves changes created_at or created_by. |
| Stamping.RunCreationIsFirstSave | backend/app/common/models.py:68-73 | After any non-empty sequence of saves, created_at and created_by are what the first save made them. |
| Stamping.RunBareUntouched | backend/app/common/models.py:68-79 | Saves never change a document that declares none of the four fields. |
| Stamping.RunWithoutActors | backend/app/common/models.py:68-79 | Saves that all lack a truthy user id never change created_by or updated_by. |
| Stamping.RunUpdatedAtIsLastSave | backend/app/common/models.py:76-77 | When updated_at is declared, after any non-empty sequence of saves it holds the last save's update clock. |
| Stamping.RunUpdatedByIsLastActor | backend/app/common/models.py:76-79 | When both update fields are declared, updated_by is the last truthy user id of the sequence, or its old value if there is none. |
| Stamping.RunKeepsOrder | backend/app/common/models.py:68-79 | Assume the clock never runs backwards and the document starts with created_at <= updated_at, or with one of them unset. Then every sequence of saves keeps undeclared fields unset and keeps created_at <= updated_at. |
| Stamping.AliceThenBob | backend/app/common/models.py:68-79 | A document whose four audit fields start unset, saved by "alice" and then by "bob", has created_at from the first save, created_by "alice", updated_at from the second save, and updated_by "bob". |
| Stamping.CreationMixinDefaults | backend/app/common/models.py:18-19 | A freshly constructed CreationMixin document has created_at set to construction time and created_by empty. |
| Stamping.CreationMixinNeverRecordsCreator | backend/app/common/models.py:68-73 | As written: a document using CreationMixin's defaults (line 19) never gets a created_by from any sequence of saves, and its created_at stays the construction time. |
| Stamping.Unsaved | backend/app/common/models.py:18-31 | A document whose audit fields are all unset. |
| Stamping.FirstSaveRecordsCreator | backend/app/common/models.py:68-73 | Corrected: for a document whose audit fields start unset, a first save with a truthy user id records that user as the creator, stamped with that save's creation clock, for good. |
| Documents.Document.constructor | backend/app/common/models.py:54-55 | A new document has the given id, schema and audit fields, no write attempts, and nothing stored. |
| Documents.Document.Save | backend/app/common/models.py:61-81 | The audit fields become exactly `Stamped` of the old ones, and unset undeclared fields are kept. Exactly one write attempt is recorded, carrying the new fields. What is stored changes to those fields only if the store accepts the write. |
| Documents.Document.StorageWrite | backend/app/common/models.py:81 | The write attempt records the current fields. The store's content becomes those fields on success and is unchanged on failure. |
| Documents.Document.EnsureCreated | backend/app/common/models.py:21-24 | The audit fields become exactly `AfterEnsureCreated` of the old ones. |
| Documents.Document.Touch | backend/app/common/models.py:33-37 | The audit fields become exactly `AfterTouch` of the old ones. |
| Documents.SaveTwice | backend/app/common/models.py:61-81 | A document whose four audit fields start unset, saved by "u1" at t1 and by "u2" at t2, ends with (t1, "u1", t2, "u2") after two write attempts. |
| Documents.FailedSecondSave | backend/app/common/models.py:61-81 | A second save the store rejects still re-stamps the document in memory. The store keeps the first save's stamps. |
| Documents.SaveWithEmptyActor | backend/app/common/models.py:68-79 | A save with the empty string as user id stamps both times and records no actor. |
| Responses.MessageValue | backend/app/common/utils.py:33 | Defines the `"message"` value: the message string, or JSON null when none is given. `Responses.SuccessResponse` states its use. |
| Responses.SuccessResponse | backend/app/common/utils.py:21-38 | The response always has "success" = true and "message" = the message, or null when none is given. It has a "data" key exactly when data is given, and then that key holds the data. It has no other key; in particular there is no status code. |
| Responses.SuccessResponseIgnoresStatus | backend/app/common/utils.py:21-38 | The status code never affects the response. |
| Text.IsSpace | backend/app/common/utils.py:98-99 | Defines the whitespace set of Python's `str.isspace`, which `rstrip()` and `strip()` remove. `Text.RStripSpec` and `Text.BlankIffAllSpace` are stated in terms of it. |
| Text.IsBlank | backend/app/common/utils.py:99 | Defines the falsy `line.strip()` of line 99 as the stripped line being empty. `Text.BlankIffAllSpace` proves this means every character is whitespace. |
| Text.BlankIffAllSpace | backend/app/common/utils.py:99 | A line is blank (`strip()` is empty) exactly when every character is whitespace. |
| Text.RStrip | backend/app/common/utils.py:98 | `rstrip()` never makes a string longer. |
| Text.RStripSpec | backend/app/common/utils.py:98 | `rstrip()` returns a prefix of its input that is empty or does not end in whitespace, and every character it drops is whitespace. |
| Text.RStripIdempotent | backend/app/common/utils.py:98-104 | Right-stripping twice is the same as once. This is why line 104's second `rstrip` changes nothing. |
| Text.StrippedBlankIffEmpty | backend/app/common/utils.py:98-99 | A right-stripped line is blank exactly when it is empty. |
| Text.Repeat | backend/app/common/utils.py:102-105 | `s * n` is empty for n <= 0, and a one-character string repeated n times has length max(n, 0). |
| Text.RepeatLength | backend/app/common/utils.py:102-105 | `s * n` has length n * len(s). |
| Text.RepeatChar | backend/app/common/utils.py:102-105 | Every character of a repeated one-character string is that character. |
| Text.Spaces | backend/app/common/utils.py:105 | `" " * n` has length max(n, 0). |
| Text.LJust | backend/app/common/utils.py:105 | `ljust(width)` has length max(len(s), width). |
| Text.LJustSpec | backend/app/common/utils.py:105 | `ljust` keeps the string as a prefix and pads with spaces only. |
| Text.RStripTrailingSpaces | backend/app/common/utils.py:104-105 | Right-stripping a stripped string followed by spaces gives back the string. |
| Text.SpacesSnoc | backend/app/common/utils.py:105 | n spaces and one more are n + 1 spaces. |
| Text.RStripLJust | backend/app/common/utils.py:104-105 | Right-stripping undoes `ljust` on a stripped string. |
| Text.Split | backend/app/common/utils.py:98 | `split("\n")` always returns at least one piece. |
| Text.SplitNewlineFree | backend/app/common/utils.py:98 | No piece of `split("\n")` contains a newline. |
| Text.JoinSplit | backend/app/common/utils.py:98 | Joining the pieces of `split("\n")` with newlines gives back the content. |
| Text.SplitJoin | backend/app/common/utils.py:98 | Splitting the newline-join of newline-free pieces gives back the pieces. |
| Text.SplitSingle | backend/app/common/utils.py:98 | Content without a newline splits into itself alone. |
| AsciiBox.Lines | backend/app/common/utils.py:98 | There is one right-stripped line per piece of the content. |
| AsciiBox.MaxWidth | backend/app/common/utils.py:99 | Defines `max(len(line) for line in lines if line.strip())`, with `None` where `max` raises on an empty argument. `AsciiBox.MaxWidthSpec` characterises it completely. |
| AsciiBox.MaxWidthSpec | backend/app/common/utils.py:99 | max_width is absent exactly when every line is blank. Otherwise it is the length of some non-blank line, and no non-blank line is longer. |
| AsciiBox.LineWithinWidth | backend/app/common/utils.py:98-99 | Every right-stripped line, blank lines included, fits within max_width. |
| AsciiBox.MaxWidthBoundsStripped | backend/app/common/utils.py:98-99 | No right-stripped line, blank lines included, is longer than max_width. |
| AsciiBox.AllBlankIffAllEmpty | backend/app/common/utils.py:98-99 | All lines are blank exactly when all right-stripped lines are empty. |
| AsciiBox.Border | backend/app/common/utils.py:102 | Defines the border of line 102, printed again at line 107, as `" " + symbol_hor * total_inner_width`. `AsciiBox.RowWidth` gives its length: one space plus `len(symbol_hor)` characters per inner column. |
| AsciiBox.Padded | backend/app/common/utils.py:105 | Defines the padded line as `" " * padding + clean.ljust(max_width) + " " * padding`. `AsciiBox.RowWidth` gives its length, and `AsciiBox.RowRecoversLine` shows the line can be read back out of it. |
| AsciiBox.Row | backend/app/common/utils.py:106 | Defines a printed row as `symbol_ver`, the padded line, and `symbol_ver`. `AsciiBox.RowWidth` and `AsciiBox.RowRecoversLine` state its length and content. |
| AsciiBox.FrameRows | backend/app/common/utils.py:103-106 | There is one framed row per line. |
| AsciiBox.FrameRowsAt | backend/app/common/utils.py:103-106 | The k-th framed row frames the k-th line. |
| AsciiBox.FrameRowsSnoc | backend/app/common/utils.py:103-106 | One more iteration of the loop appends the row of the next line to the rows so far. |
| AsciiBox.Framed | backend/app/common/utils.py:102-107 | Defines the printed block: a border, one framed row per line, and the border again. `AsciiBox.FramedShape` gives its line count and every line. |
| AsciiBox.FramedShape | backend/app/common/utils.py:100-107 | The printed block has two lines more than its content. It starts and ends with the border, and in between frames each line in order. |
| AsciiBox.Layout | backend/app/common/utils.py:97-107 | What `box` prints. It fails exactly when line 99's `max` has no argument, that is, when no line is non-blank. `AsciiBox.Box` is proved equal to it; `AsciiBox.LayoutShape` and `AsciiBox.LayoutWidths` give its line count and every line. |
| AsciiBox.LayoutFailsIffAllBlank | backend/app/common/utils.py:99 | `box` raises exactly when every line of the content is empty after right-stripping. Empty content is one such case. |
| AsciiBox.LayoutIsFramed | backend/app/common/utils.py:98-107 | A successful `box` prints the right-stripped lines of the content, framed to max_width. |
| AsciiBox.LayoutShape | backend/app/common/utils.py:98-107 | When `box` succeeds, its output has `len(content.split("\n")) + 2` lines. The first and last are `" " + symbol_hor * (max_width + 2 * padding)`. Line i + 1 is `symbol_ver + " " * padding + line_i.ljust(max_width) + " " * padding + symbol_ver`. |
| AsciiBox.Box | backend/app/common/utils.py:97-107 | The loop prints exactly the specified layout, or fails exactly where the specification says. |
| AsciiBox.RowWidth | backend/app/common/utils.py:100-106 | A row of a line that fits max_width is `2 * len(symbol_ver) + max_width + 2 * padding` long, counting a negative padding as none. A border is one space plus `len(symbol_hor)` characters per inner column. |
| AsciiBox.LayoutWidths | backend/app/common/utils.py:98-107 | Every middle line of a successful `box` is `2 * len(symbol_ver) + max_width + 2 * padding` long, counting a negative padding as none. With non-negative padding and a one-character `symbol_hor`, both borders are `1 + max_width + 2 * padding` long, so they span the same inner width as the rows. |
| AsciiBox.RowRecoversLine | backend/app/common/utils.py:104-106 | Cutting the frame and padding off a row and right-stripping the rest gives back the framed line. |
| AsciiBox.LinesAreStripped | backend/app/common/utils.py:98-104 | Every line `box` frames is already right-stripped. |

## Left out

- `utc_now`, `to_ist`, `IST` and `ISTTimeStampedResponse`: they read the wall clock, convert time zones with `pytz` and format with `strftime`. The model takes clock readings as parameters, and time zones play no part in stamping.
- `BaseTimeStampMixin`: it calls `datetime.now` with a `datetime` argument, which needs a time zone. That call fails at run time, so this mixin has no stamping behaviour to model.
- `CreationMixinSQL`, `UpdationMixinSQL` and `TimeStampMixinSQL` (models.py lines 101-141): they are SQLAlchemy column declarations. Their timestamp defaults are `server_default` and `onupdate` expressions that the database evaluates, so no Python stamping code runs.
- `BaseSQLModel` (models.py lines 87-98): it is left out because it belongs to the SQL
  side, not to Beanie document stamping. Two of its parts do run as Python code:
  - its `id` column default `str(uuid.uuid4())` is evaluated once, when the class body runs at import, so every row shares that one value;
  - `__tablename__` returns the lower-cased class name.
- Beanie's own persistence inside `super().save()`: it is modelled only as a write that succeeds or fails, recorded in `writeAttempts` and `persisted`.
- Some of `save` is not modelled: its extra `*args` and `**kwargs`, its asynchronous execution, and any interleaving of concurrent saves.
- The document id's `uuid4` default: the id is a constructor parameter.
- Document.EnsureCreated: it requires the document to declare created_at, just as `ensure_created` exists only on documents that use CreationMixin.
- Document.Touch: it requires the document to declare both update fields, just as `touch` exists only on documents that use UpdationMixin.
- SuccessResponse: key order in the returned dict is not modelled, because a Dafny map has no order. The type of `data` is a type parameter instead of `dict | list`.
- The `SuccessResponse` pydantic model (lines 15-18 of utils.py): it is a declaration with defaults and no behaviour.
- `ASCIIART.__init__`, `render_ascii` and `SAFE_FONTS`: they render a banner with `pyfiglet` in a randomly chosen font. `box` is modelled on arbitrary content instead.
- `print`: modelled by returning the printed lines in order.
- Text.IsSpace: the whitespace set is Python's `str.isspace` on code points. Strings are sequences of Dafny characters, with no normalisation.

## Where the code works against itself

CreationMixin's docstring (models.py line 16) calls the creation metadata "immutable after first save", and `save` sets `created_by` together with the first `created_at` (lines 70-73). Both describe a first save that records who created the document.

However, `CreationMixin` gives `created_at` a default factory that runs when the document is constructed. A document built with that default already has `created_at` set before its first save, so the branch of lines 71-73 is never reached and `created_by` is never set.

The model follows the code. `Stamping.CreationMixinDefaults` is the constructed state, and `Stamping.CreationMixinNeverRecordsCreator` proves the consequence. The intended behaviour is proved for documents whose fields start unset (`Stamping.Unsaved`, `Stamping.FirstSaveRecordsCreator`).

## Findings

| source | as written | input that shows it | evidently intended | confidence | as-written member | corrected member |
|---|---|---|---|---|---|---|
| backend/app/common/models.py:19 | `created_at` defaults to `utc_now()` when a CreationMixin document is constructed, so `if not created_at` at line 70 is false on the first save | Construct a document with CreationMixin's defaults, then call `save(user_id="alice")`: `created_by` stays `None`, and `created_at` is construction time | The first save records its actor in `created_by` and stamps `created_at` | medium, not executed | Stamping.CreationMixinNeverRecordsCreator | Stamping.FirstSaveRecordsCreator |
