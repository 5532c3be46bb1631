# Missing Alt: a Dafny model of the hook loader, the alt-text report and the decorative toggle

This project models the decision logic of the WordPress plugin "Missing Alt". The plugin audits
media-library attachments for missing image alt text. Three pieces are modelled:

- **Hook loader** (`hook_loader.dfy`, module `HookLoader`). `Missing_Alt_Loader` is a class with
  two append-only lists of hook records, `actions` and `filters`. `add_action` and `add_filter`
  append through the pure helper `add`. `run` replays every filter and then every action to the
  host, and finally registers the `admin_menu` hook. The host's `add_filter` / `add_action` are
  modelled by the list of `Registration`s that `Run` returns, in the order the host receives them.
- **Alt-text report** (`alt_report.dfy`, module `AltReport`). `extra_post_info_page` splits the
  attachments into `good` (alt text present) and `bad` (alt text missing). It counts both and turns
  the counts into coverage percentages with `get_percentage`. The database query and the
  `get_post_meta` lookups are modelled by an input sequence of `(id, altText)` pairs. The test is
  PHP truthiness: `""` and `"0"` are both falsy, so both count as missing (`Truthy`).
- **Decorative toggle** (`decorative_toggle.dfy`, module `DecorativeToggle`). This is the click
  handler in `assets/scripts/index.ts`. A row's state is whether its `tr` carries the
  `row--decorative` class (`Row.classList`). A click without a `data-id` does nothing. Otherwise the
  handler sends `{action: "convert_decorative", id, value: String(!isDecorative)}`. It toggles the
  class only when the parsed reply's `message` is exactly `"success"`. A reply that fails to parse
  and a failed fetch leave the row alone. The reply is a parameter of the click.

`wrappers.dfy` holds the `Option` datatype that the modules share.

Percentages are exact integers in hundredths of a percent. `round(x, 2)` is modelled as
round-half-up on the exact ratio, which equals PHP's half-away-from-zero on non-negative values.
This is an abstraction of PHP's floating-point `round`. Because both coverages are rounded
separately, with at least one attachment they add up to 100.00 % or 100.01 %; with none, both are 0.00 %. `CoverageSum` proves this, and
`CoverageSumCanExceedHundred` shows a case where the sum is 100.01 %.

The code has only two buckets, and the model follows it. A design with a third "decorative"
bucket in the report is not what `extra_post_info_page` does: it never reads a decorative flag.

## Model

| member | source | states |
|---|---|---|
| `HookLoader.Add` | includes/class-missing-alt-loader.php:123-140 | the result is the input list with exactly one record appended; that record holds the given hook, component, callback, priority and accepted args, and the input list is its unchanged prefix |
| `HookLoader.Loader.constructor` | includes/class-missing-alt-loader.php:49-53 | a new loader has empty `actions` and `filters` |
| `HookLoader.Loader.AddAction` | includes/class-missing-alt-loader.php:65-80 | `actions` becomes the old list plus one record with the given fields at the end; `filters` is unchanged; priority defaults to 10 and accepted args to 1 |
| `HookLoader.Loader.AddFilter` | includes/class-missing-alt-loader.php:92-107 | `filters` becomes the old list plus one record with the given fields at the end; `actions` is unchanged; same defaults |
| `HookLoader.AddWithDefaults` | includes/class-missing-alt-loader.php:65-107 | a caller that omits the optional arguments gets records with priority 10 and one accepted argument |
| `HookLoader.Loader.Run` | includes/class-missing-alt-loader.php:147-167 | the host receives every filter exactly once in insertion order, then every action exactly once in insertion order, each bound to its component and callback with its priority and arg count, then `admin_menu` bound to `missing_alt_menu_item`; nothing else is registered |
| `AltReport.BuildReport` | includes/class-missing-alt-loader.php:193-227 | `good` and `bad` are the ids with truthy and falsy alt text in input order; the total is the input length; good + bad counts equal the total; both coverages are defined (no division by zero) and lie in [0, 100.00] % |
| `AltReport.BucketCounts` | includes/class-missing-alt-loader.php:216-218 | `count_good + count_bad == count_total` for every input |
| `AltReport.BucketsPartition` | includes/class-missing-alt-loader.php:204-214 | the two buckets together hold, as a multiset, exactly the input's ids: each attachment lands in one bucket |
| `AltReport.BucketsOfConcat` | includes/class-missing-alt-loader.php:204-214 | classification goes element by element: the buckets of `a + b` are the buckets of `a` followed by those of `b`, so input order is kept within each bucket |
| `AltReport.GoodIdsExactly` | includes/class-missing-alt-loader.php:209-210 | an id is in `good` iff some attachment with that id has truthy alt text |
| `AltReport.BadIdsExactly` | includes/class-missing-alt-loader.php:211-212 | an id is in `bad` iff some attachment with that id has falsy alt text (`""` or `"0"`) |
| `AltReport.Placement` | includes/class-missing-alt-loader.php:204-214 | with unique ids, an attachment is in `good` iff its alt text is truthy and in `bad` iff it is not |
| `AltReport.RoundDiv` | includes/class-missing-alt-loader.php:223 | the result is the integer nearest to `a / b`, with halves rounded up |
| `AltReport.GetPercentage` | includes/class-missing-alt-loader.php:220-224 | 0 when `number` is 0, whatever the total; a division-by-zero error (PHP 8's `DivisionByZeroError`) exactly when `number != 0` and `total == 0`; otherwise `number / total * 100` rounded to the nearest hundredth, halves up |
| `AltReport.PercentageInRange` | includes/class-missing-alt-loader.php:220-227 | for `number <= total` the percentage is defined and lies in [0, 100.00] |
| `AltReport.CoverageSum` | includes/class-missing-alt-loader.php:226-227 | with at least one attachment, good and bad coverage add up to 100.00 or 100.01 % |
| `AltReport.CoverageSumCanExceedHundred` | includes/class-missing-alt-loader.php:222-223 | with 1 good attachment out of 20000, the coverages are 0.01 % and 100.00 % |
| `AltReport.TableRows` | includes/class-missing-alt-loader.php:243-256 | the table lists every bad id with the missing status, in order, and then every good id with the valid status |
| `DecorativeToggle.Click` | assets/scripts/index.ts:7-61 | no request and no change without a truthy `data-id`; otherwise one request for that id whose value is the negation of the current state (`"false"` for a decorative row, `"true"` otherwise), sent as the form `action=convert_decorative`, `id`, `value`; the state flips iff a request was sent and the message is exactly `"success"`; after a success the state equals the value sent; no other class changes |
| `DecorativeToggle.HandleClick` | assets/scripts/index.ts:7-61 | the listener sends exactly the request `Click` describes and leaves the row's classes as `Click` describes; it changes only the button's row |
| `DecorativeToggle.FailureLeavesRow` | assets/scripts/index.ts:52-58 | a parse failure or a network failure leaves the row's classes unchanged |
| `DecorativeToggle.TwoConfirmedClicksRestore` | assets/scripts/index.ts:11-51 | two confirmed clicks on the same row restore its original classes |
| `DecorativeToggle.Toggled` | assets/scripts/index.ts:51 | `classList.toggle` flips membership of the token and keeps every other class |
| `DecorativeToggle.Row.Toggle` | assets/scripts/index.ts:51 | the row's class list becomes `Toggled` of the old one |
| `DecorativeToggle.Payload` | assets/scripts/index.ts:24-35 | the form has the fields `action=convert_decorative`, `id`, `value`, in that order |
| `DecorativeToggle.BoolString` | assets/scripts/index.ts:16-27 | `String(b)` is `"true"` exactly when `b` holds and `"false"` exactly when it does not |
| `DecorativeToggle.BoolStringRoundTrip` | assets/scripts/index.ts:16-27 | the string sent determines the boolean: reading `String(b)` back as a boolean gives `b` |

## Left out

- Host calls (`add_filter`, `add_action`, `add_menu_page`, `$wpdb->get_results`, `get_post_meta`) are foreign. They are modelled as inputs (the attachment sequence) and outputs (the registration list).
- The nested PHP functions declared inside `run` (`missing_alt_menu_item`, `extra_post_info_page`, `get_percentage`) are modelled as top-level functions. A second call of `run` would stop with a function redeclaration error in PHP, and the model does not capture that.
- `missing_alt_menu_item`'s `add_menu_page` arguments are host configuration and are not modelled.
- The HTML output of `extra_post_info_page` (output buffering, markup, edit links) is rendering. Only the row order and status are modelled (`TableRows`).
- TableRows: assumes PHP short open tags are enabled. The table loops at lines 243-256 open with `<?`; with `short_open_tag=Off` they print as plain text and the page fails on `<?=$value?>`, and the model does not capture that.
- GetPercentage: its error case is PHP 8's `DivisionByZeroError`. Under PHP 7, dividing by zero gives `INF` with a warning, which is not modelled. The report never reaches this case, because `number <= total` there.
- GetPercentage: models PHP's floating-point division and `round` by exact rational arithmetic in hundredths. Float artifacts are not captured.
- AltReport.Attachment: an alt text meta value that is not a string (a serialized array, say) is not modelled.
- Attachment ids are modelled as natural numbers. The host actually returns them as strings, and they are only echoed back.
- Click, HandleClick: each click is modelled as finishing, reply included, before the next click starts. Overlapping clicks on one row are not modelled. In the browser, a second click before the first reply reads the same state and sends the same value. Two `"success"` replies then toggle twice, so the row can end in a state other than the last value sent. `TwoConfirmedClicksRestore` is about clicks in sequence only.
- The browser side is abstracted: DOM querying, `addEventListener`, `preventDefault`, `fetch`, `URLSearchParams` encoding, `console.error` and async scheduling. The reply to a request is a parameter of the click, and a hung request is not modelled.
- DecorativeToggle.Response: a parsed reply whose `message` is not a string is modelled as an absent message. Like an absent message, it is never `"success"`.
- A button outside any `tr` (where `closest("tr")` is null) is not modelled. Each button carries its row.
- The listener's return value (`true`, or `undefined` on the early return) is ignored by the browser and is not modelled.
- The server-side `convert_decorative` handler and any decorative bucket in the report are not part of this model.
- `missing-alt.php`, `gulpfile.js`, `includes/class-missing-alt-i18n.php` and `includes/class-missing-alt-deactivator.php` are bootstrap, build tooling, one foreign call and an empty method. They are not modelled.
