# SberAuto prediction service: feature derivation for `/predict`

This project models the `/predict` handler of the SberAuto prediction service (`app/main.py`).
The handler receives one web-visit session and derives six numeric columns from it:

- the visit month and the Monday-based day of week, both taken from the parsed visit date, or 0 when the date does not parse;
- an `is_weekend` flag;
- the screen width and height, read from a `"<width>x<height>"` string;
- an `is_social` flag, set when `utm_source` is one of six hard-coded identifiers.

It then hands the row to a trained classifier and answers with `{session_id, prediction}`.

The model is made of pure functions and lemmas, in four modules:

- `Wrappers`: `Option` and `Result`.
- `PyText`: the Python string built-ins the handler uses, restricted to ASCII. These are `str.split` with a one-character separator, `str.isdigit`, `int` on a digit string, and `str` on a natural number as its partner.
- `Prediction`: the `SessionInput` record, the derived `Features` row, every derivation step, and `Predict`, the whole handler.
- `Scenarios`: worked inputs, including a session dated Saturday 13 May 2023.

Date parsing (`pd.to_datetime(..., errors='coerce')`) and the classifier (`model.predict`) are library code outside the model. `Predict` therefore takes them as function parameters:

- `parseDate` returns `None` when the date does not parse. Otherwise it returns a `CalendarDate` whose month is in 1..12 and whose day of week is in 0..6.
- `score` returns `None` when the classifier raises, and otherwise the labels it predicts.

Every member is a function, so the same input, parser and classifier always produce the same response.

## Model

| member | source | states |
|---|---|---|
| `PyText.Split` | app/main.py:56 | `res.split('x')`: one piece more than there are separators, no piece contains the separator, and joining the pieces with it gives back the input |
| `PyText.SplitJoin` | app/main.py:56 | splitting undoes joining whenever no piece contains the separator, so the pieces of a split are the only separator-free decomposition |
| `PyText.SplitWithoutSeparator` | app/main.py:55-56 | a string without the separator splits into itself alone |
| `PyText.SplitFirstTwo` | app/main.py:56-58 | `parts[0]` and `parts[1]` are the text before the first separator and the text up to the second one or the end, whatever follows |
| `PyText.SplitAtFirstSeparator` | app/main.py:56 | a separator-free prefix followed by the separator becomes the first piece, and the rest splits on its own |
| `PyText.FieldEnd` | app/main.py:55-56 | the first position of the separator, or the length when there is none: nothing before it is the separator, and it equals the length exactly when the separator is absent |
| `PyText.ToDecimalOfDecimal` | app/main.py:57-58 | for a string that passes `isdigit` (non-empty, all ASCII digits) and has no leading zero unless it is "0", `str(int(p)) == p`: with `DecimalOfToDecimal` this makes `int` and `str` inverse on canonical digit strings |
| `PyText.LeadingDigitBound` | app/main.py:57-58 | a string that passes `isdigit` and does not start with '0' reads as at least 10 to its length minus one |
| `PyText.DecimalValue` | app/main.py:57-58 | `int(p)` for a digit string is its base-10 value, below 10 to the number of digits |
| `PyText.DecimalOfToDecimal` | app/main.py:57-58 | `int(str(n)) == n` for every natural number |
| `PyText.ToDecimal` | app/main.py:57-58 | `str(n)` is a non-empty digit string that starts with '0' only when it is "0" |
| `PyText.LeadingZeroIgnored` | app/main.py:57-58 | for a string `p` that passes `isdigit`, a leading zero does not change the value: `int("0" + p) == int(p)` |
| `PyText.DigitsExclude` | app/main.py:57-58 | a string that passes `isdigit` contains no 'x' |
| `Prediction.IntOrZero` | app/main.py:57-58 | a piece that is not all digits (the empty piece included) reads as 0 |
| `Prediction.ParseResolution` | app/main.py:54-60 | a resolution without an 'x' gives width 0 and height 0 |
| `Prediction.ResolutionFields` | app/main.py:55-58 | for a width piece and a height piece without 'x', followed by nothing or by text that starts with 'x', the result is each piece read on its own (its value if all digits, else 0), and anything after a second 'x' is ignored |
| `Prediction.ResolutionByPosition` | app/main.py:55-58 | when the string has an 'x', the width is the text before the first 'x' and the height is the text from there up to the next 'x' or the end |
| `Prediction.ResolutionOfDigits` | app/main.py:56-58 | `"<digits>x<digits>"` gives exactly the two base-10 values |
| `Prediction.ResolutionRoundTrip` | app/main.py:56-58 | rendering two numbers as `"<w>x<h>"` and parsing the result gives them back |
| `Prediction.VisitMonth` | app/main.py:45-46 | month of the parsed date, in 1..12; 0 when the date did not parse |
| `Prediction.DayOfWeek` | app/main.py:45-47 | Monday-based day of week of the parsed date, in 0..6; 0 when the date did not parse |
| `Prediction.IsWeekend` | app/main.py:51 | the flag is 0 or 1, and 1 exactly when the day of week is at least 5 |
| `Prediction.WeekendDaysOfWeek` | app/main.py:50-51 | within 0..6 the flag is 1 for Saturday (5) and Sunday (6) only |
| `Prediction.IsSocial` | app/main.py:63-65 | the flag is 0 or 1, and 1 exactly when `utm_source` is one of the six listed identifiers |
| `Prediction.SocialSourceLength` | app/main.py:63-64 | every listed identifier has 20 characters |
| `Prediction.NotSocialUnlessTwentyChars` | app/main.py:63-65 | a source of any other length is not social |
| `Prediction.StrictPrefixNotSocial` | app/main.py:63-65 | a strict prefix of a listed identifier is not social |
| `Prediction.PaddedNotSocial` | app/main.py:63-65 | a listed identifier with anything before or after it is not social, because the comparison does no trimming |
| `Prediction.SocialSourcesCaseDistinct` | app/main.py:63-64 | no two listed identifiers differ only in ASCII letter case |
| `Prediction.CaseVariantNotSocial` | app/main.py:63-65 | a case variant of a listed identifier that differs from it is not social, because the comparison is case-sensitive |
| `Prediction.SessionInput` | app/main.py:21-35 | the request record: the fourteen fields in declaration order, with `utm_adcontent` and `utm_keyword` optional |
| `Prediction.Features` | app/main.py:42-65 | the row given to the classifier: the request columns with the visit date replaced by its parse, then `visit_month`, `day_of_week`, `is_weekend`, `screen_width`, `screen_height`, `is_social` |
| `Prediction.Response` | app/main.py:74-77 | the response holds exactly two fields, `session_id` and the integer `prediction` |
| `Prediction.DeriveFeatures` | app/main.py:42-65 | the row keeps every request field except the visit date, which is replaced by its parse. An unparsed date gives month 0, day of week 0 and no weekend. Otherwise the month is in 1..12 and the day of week in 0..6. `is_weekend` is 1 exactly when the date parsed and falls on day 5 or 6. Width and height are the parsed resolution. `is_social` is 1 exactly for a listed source |
| `Prediction.Predict` | app/main.py:42-77 | the classifier is given exactly the derived row. The response succeeds exactly when the classifier returns at least one label. It then holds the request's `session_id` unchanged and the first label, and no other field. A classifier error fails the request with `ScoringFailed`, and an empty label list fails it with `NoPrediction` |
| `Scenarios.Resolution1920x1080` | app/main.py:56-58 | "1920x1080" gives (1920, 1080) |
| `Scenarios.Resolution1280xAB` | app/main.py:57-58 | "1280xAB" gives (1280, 0) |
| `Scenarios.ResolutionX1080` | app/main.py:57-58 | "x1080" gives (0, 1080) |
| `Scenarios.Resolution1x2x3` | app/main.py:56-58 | "1x2x3" gives (1, 2) |
| `Scenarios.ResolutionUnknown` | app/main.py:55-60 | "unknown" gives (0, 0) |
| `Scenarios.SaturdaySession` | app/main.py:42-77 | the session dated 2023-05-13 (parsed as month 5, day 5) from a listed source on a 375x667 screen derives month 5, day 5, weekend 1, width 375, height 667 and social 1. Its response is session "s1" with the first label |

## Left out

- Loading the pickled model bundle from disk at startup (app/main.py:10-14). This is file I/O plus deserialising an opaque artifact; the classifier enters the model as the `score` parameter.
- The FastAPI application, the route decorators and the `/status` endpoint (app/main.py:17, 39, 80-82). They are framework plumbing with no logic.
- Pydantic validation of the request (app/main.py:21-35). Only the record's field layout is modelled, with `utm_adcontent` and `utm_keyword` as `Option<string>`. Rejection of malformed requests happens before the handler runs.
- The internals of `pd.to_datetime(..., errors='coerce')` (app/main.py:45). Date-string parsing and calendar arithmetic belong to pandas. The parser is the `parseDate` parameter, and its result is reduced to the month and day of week the handler reads. Which weekday a given date string falls on (13 May 2023 is a Saturday, for example) is therefore an assumption of `Scenarios.SaturdaySession`, not something the model proves. The classifier is also handed only this reduced date. In the source it receives the full timestamp. The model therefore cannot tell apart two dates with the same month and day of week, such as 2023-05-13 and 2023-05-20, while the source's classifier can.
- The DataFrame construction and the categorical coercion of text columns (app/main.py:42, 68-69). This is pandas dtype machinery. `Features` keeps the columns in order as plain values, and what the classifier does with unseen categories stays inside `score`.
- The trained classifier (app/main.py:72) is an arbitrary function. Its labels are taken to be integers already, so `int(y_pred[0])` is the first label itself. Float or string labels are not modelled.
- IsDigits: models ASCII digits only. For non-ASCII characters the source behaves in two ways, and the model reads every such piece as 0:
  - `str.isdigit` accepts decimal digits of other scripts, such as '٣' or '３'. `int` reads them, so the source uses their value.
  - `str.isdigit` also accepts digit characters that are not decimals, such as the superscript '²'. `int` raises `ValueError` on them. So a resolution like `"²x1"` fails the whole request in the source (app/main.py:57-58), while the model gives (0, 1).
- IntOrZero: does not model CPython's limit on converting long digit strings. Since 3.11 (and the 3.10.7 and 3.9.14 backports), `int` raises `ValueError` by default on a string of more than 4300 digits. The limit can be changed through `sys.set_int_max_str_digits` or `PYTHONINTMAXSTRDIGITS`. In the source such a resolution piece fails the request. The model returns its full value.
- ParseResolution: inherits the same gap. A resolution piece of more than 4300 digits fails the request in the source, but the model returns its full value. How pandas stores a value beyond 64 bits in the column is not modelled either.
