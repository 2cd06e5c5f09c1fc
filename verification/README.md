# Design studio: input validation of the user and application forms

This project models the validation logic of the design-studio web application's
forms (`studio/design/forms.py`), where users register, edit their profile and
submit design requests with an image. It covers:

- the two pattern validators: `latin_validator` (`^[a-zA-Z-]*$`) on the
  username, and `kiril_validator` (`^[а-яА-Я- ]*$`) on first name, last name
  and patronymic (module `Validators`);
- the registration hooks `clean_username`, `clean_email` and
  `clean_agree_to_terms`, and the profile-edit hooks `clean_username` and
  `clean_email` (module `UserForms`);
- the two `clean_app_image` hooks of the application forms: the creation hook,
  with its 2 MiB size limit, and the one on the edit form that reads
  `design_image` (module `ImageForms`);
- the messages each hook raises (module `FormResult`).

A hook returns `Ok(value)` for the value it hands back or `Err(error)` for the
`ValidationError` it raises. The ORM query `AdvUser.objects.filter(...).exists()`
becomes membership in the set of usernames or emails already stored. PIL's
`Image.open(...).format` becomes the upload's `decoded` field: `Some(name)` when
decoding succeeds with a format, `None` when it raises or yields no format.

Two partners are proved beside the hooks. For the patterns, the scanning reading
(`Span`, a greedy run followed by Python's `$`) is shown equal to a declarative
one (`Accepts`). For the account hooks, a table of accounts is kept with no two
accounts sharing a username or an email, and the hooks are shown to keep that
invariant when a row is added or edited.

Facts about the code that the model records:

- The allowed format list is JPEG, JPG, PNG and BMP (`forms.py:89`).
- A file in a wrong format is refused with the "cannot open" message, not the
  wrong-format message (see Findings).
- The edit form's hook is named `clean_app_image`, but the form's only field is
  `design_image` (`forms.py:108`, `forms.py:123`). The model states that hook
  on its own and claims nothing about when it runs.
- Python's `$` also matches before a final newline, so both patterns accept a
  value that ends in one `\n`.

## Model

| member | source | states |
|---|---|---|
| `Validators.Span` | studio/design/forms.py:16-20 | the greedy `[a-zA-Z-]*` / `[а-яА-Я- ]*` run is maximal: every character before it is in the class, the next one is not |
| `Validators.PatternMatchesIff` | studio/design/forms.py:15-22 | Python's `re.search` of `^[...]*$` succeeds iff every character is in the class, or all but a final newline are |
| `Validators.LatinValidator` | studio/design/forms.py:15-18 | the username is accepted unchanged iff it is ASCII letters and `-` (up to a final newline); otherwise the Latin-only message |
| `Validators.KirilValidator` | studio/design/forms.py:19-22 | a name is accepted unchanged iff it is А-Я, а-я, `-` and space (up to a final newline); otherwise the Cyrillic-only message |
| `Validators.ValidatorsOnStrippedValue` | studio/design/forms.py:45-48 | on a value not ending in a newline, each field's validator accepts iff every character is in its class |
| `Validators.RejectsForeignChar` | studio/design/forms.py:15-22 | one character outside the class, anywhere but a final newline, makes the pattern fail |
| `Validators.KirilRejectsYo` | studio/design/forms.py:19-22 | a name containing ё or Ё is rejected, since these lie outside the а-я and А-Я ranges |
| `Validators.ScriptsDoNotMix` | studio/design/forms.py:45-48 | a Latin letter rejects a name; a Cyrillic letter or a space rejects a username |
| `Validators.BothValidatorsAcceptOnlyHyphens` | studio/design/forms.py:15-22 | a value passing both validators is hyphens, possibly followed by one newline |
| `UserForms.RegisterCleanUsername` | studio/design/forms.py:23-27 | registration refuses a username iff it is already taken ("user with this nick exists"); otherwise returns it unchanged |
| `UserForms.RegisterCleanEmail` | studio/design/forms.py:29-33 | registration refuses an email iff it is already taken; otherwise returns it unchanged |
| `UserForms.RegisterCleanAgreeToTerms` | studio/design/forms.py:40-43 | the hook refuses `false` with the consent message and returns `true` otherwise |
| `UserForms.EditCleanUsername` | studio/design/forms.py:65-69 | the edit form refuses a username iff any account holds it, the editing user's own included ("this nick is taken") |
| `UserForms.EditCleanEmail` | studio/design/forms.py:71-75 | the edit form refuses an email iff any account holds it, the editing user's own included |
| `UserForms.EditCleanUsernameIntended` | studio/design/forms.py:65-69 | corrected hook: refuses a username iff an account other than the edited one holds it |
| `UserForms.EditCleanEmailIntended` | studio/design/forms.py:71-75 | corrected hook: refuses an email iff an account other than the edited one holds it |
| `UserForms.RegisterRejectsDuplicate` | studio/design/forms.py:23-33 | a username or email held by any stored account is refused at registration with its field's message |
| `UserForms.RegisterKeepsIdentitiesUnique` | studio/design/forms.py:23-33 | adding an account whose username and email passed the hooks keeps all usernames and all emails unique |
| `UserForms.EditRejectsOwnIdentity` | studio/design/forms.py:65-75 | as written, the edit form refuses the editing user's own unchanged username and own unchanged email |
| `UserForms.EditIntendedAcceptsOwnIdentity` | studio/design/forms.py:65-75 | the corrected edit hooks accept the editing user's unchanged username and email |
| `UserForms.EditAsWrittenIsStricter` | studio/design/forms.py:65-75 | whatever the edit hooks accept as written, the corrected hooks accept with the same value |
| `UserForms.EditIntendedKeepsIdentitiesUnique` | studio/design/forms.py:65-75 | replacing the edited account by values the corrected hooks accept keeps usernames and emails unique |
| `UserForms.EditKeepsIdentitiesUnique` | studio/design/forms.py:65-75 | the same holds for the edit hooks as written |
| `ImageForms.UpperEqualsIff` | studio/design/forms.py:97 | upper-casing a name yields an upper-case target iff the name equals it up to ASCII case |
| `ImageForms.FormatTestIff` | studio/design/forms.py:89-97 | `format.upper() in ['JPEG', 'JPG', 'PNG', 'BMP']` holds iff the format is jpeg, jpg, png or bmp in any case |
| `ImageForms.OpenAndTestFormat` | studio/design/forms.py:94-98 | the `try` body completes iff the image decodes to an allowed format, raises the wrong-format error for another format, and raises a foreign exception iff decoding fails |
| `ImageForms.CatchAll` | studio/design/forms.py:99-100 | `except Exception` turns every exception raised in the `try`, the wrong-format error included, into "cannot open" |
| `ImageForms.CreateCleanAppImage` | studio/design/forms.py:87-101 | no image passes unchanged; over 2 MiB is refused for size whatever the format; otherwise accepted unchanged iff it decodes to an allowed format, else "cannot open" |
| `ImageForms.EditCleanAppImage` | studio/design/forms.py:108-119 | no image passes unchanged; any image is accepted unchanged iff it decodes to an allowed format, else "cannot open"; no size bound |
| `ImageForms.CreateIsEditWithSizeLimit` | studio/design/forms.py:87-119 | the creation hook equals the edit form's hook with the 2 MiB check in front |
| `ImageForms.SizeLimitBoundary` | studio/design/forms.py:90-93 | 2 MiB + 1 bytes is refused for size whatever the format; exactly 2 MiB passes the size check |
| `ImageForms.EditHookHasNoSizeLimit` | studio/design/forms.py:108-119 | an oversized image in an allowed format is refused at creation and accepted by the edit form's hook |
| `ImageForms.WrongFormatMessageUnreachable` | studio/design/forms.py:94-100 | neither hook ever reports the wrong-format message |
| `ImageForms.GifReportedAsUnopenable` | studio/design/forms.py:94-100 | a 1 KiB image that decodes as GIF is refused with "cannot open" |
| `ImageForms.CannotOpenIsNotWrongFormat` | studio/design/forms.py:98-100 | the wrong-format text and the cannot-open text differ, so the user sees which of the two was raised |
| `ImageForms.CatchForeign` | studio/design/forms.py:99-100 | corrected handler: the hook's own error passes through; only a failed decode becomes "cannot open" |
| `ImageForms.CreateCleanAppImageIntended` | studio/design/forms.py:87-101 | corrected creation hook: a decoded format outside the list is refused with the wrong-format message, an undecodable file with "cannot open" |
| `ImageForms.EditCleanAppImageIntended` | studio/design/forms.py:108-119 | corrected edit-form hook, with the same messages as the corrected creation hook |
| `ImageForms.IntendedHooksDecideAlike` | studio/design/forms.py:94-100 | the correction changes only messages: each corrected hook accepts exactly the images its as-written hook accepts, with the same value |

## Findings

| source | as written | input that shows it | evidently intended | confidence | as-written member | corrected member |
|---|---|---|---|---|---|---|
| studio/design/forms.py:94-100 | the wrong-format `ValidationError` is raised inside `try` and caught by `except Exception`, which re-raises "cannot open" (the same holds at lines 112-118) | an image of 1024 bytes that decodes as `GIF` | report "wrong format, allowed: JPEG, JPG, PNG, BMP" | high; not executed | `ImageForms.GifReportedAsUnopenable` | `ImageForms.CreateCleanAppImageIntended` |
| studio/design/forms.py:65-75 | the edit form's uniqueness queries include the account being edited | a stored account `Account("ivan", "ivan@example.org")` resubmitting its profile with username `ivan` unchanged is refused with "this nick is taken" | refuse only values held by another account | high; not executed | `UserForms.EditRejectsOwnIdentity` | `UserForms.EditCleanUsernameIntended` |

## Left out

- `studio/design/views.py`, `studio/design/urls.py` and `studio/design/models.py` are not part of this model: request handling, roles, routing, the application status lifecycle and deletion rules live there or are absent from the code.
- Django's field machinery is not modelled: `CharField` required and whitespace stripping, `EmailField` and `EmailValidator`, the password checks of `UserCreationForm`, and the order in which field validators and `clean_*` hooks run. Nothing is claimed about whether the form accepts the empty string.
- `UserForms.RegisterCleanAgreeToTerms`: the field is declared `BooleanField(required=True)`, so the field's own check refuses an unticked box before the hook runs; the hook is modelled on its own, and nothing is claimed about which message the form shows.
- `UserLoginForm` has no logic of its own; the `is_employer` field of the registration form carries no check.
- The ORM query is abstracted to set membership. A race between the check and the save is not modelled; it is left to the database.
- PIL decoding is abstracted to the `decoded` field. Whether the edit form's hook ever runs for `design_image` is not modelled.
- An upload's truthiness is modelled as `Some` versus `None`; a file object that is present but falsy counts as `None`.
- `ImageForms.UpperEqualsIff`: upper-casing covers ASCII letters only, not Python's full Unicode case mapping; PIL's format names are ASCII.
- The two patterns are modelled for the two character classes the source uses, not as a general regular-expression engine.
