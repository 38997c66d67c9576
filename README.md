# Holiday calendar cleaning and string enumerations

This project models two parts of an agricultural market price service in Dafny:

- **The Taiwan calendar client** (`CalendarApi`, file `open_apis.dfy`). `TaiwanCalendarApi` stores the
  dataset endpoint, the response format and the `year`/`size` query. `GetCleanedList` turns the
  calendar entries fetched from the government open data into the list of real holidays:
  - an entry without a name (JSON `null`) is dropped;
  - an entry whose name is a designated not-a-holiday label (`IsNotHolidays`: Labour Day "勞動節",
    Armed Forces Day "軍人節") is dropped;
  - every other entry becomes `{date, info: {name, holidaycategory, description}}`, in input order.

  The loop is proved against the specification function `Cleaned`, which filters with `Keep` and
  maps with `Reshape`. Lemmas then state what `Cleaned` means:
  - one output per kept entry;
  - input order is kept;
  - membership;
  - the bounds on the length;
  - the fields are copied unchanged.
- **The string enumerations** (`Enums`, file `enums.dfy`). `SupplyType`, `Category`, `ProductType`,
  `FileTypes`, `IsNotHolidays` and `OpenApis` derive from a `str`-backed `BaseEnum`. Each becomes a
  datatype with:
  - `Value()`: the member/value table;
  - `ToString()`: `BaseEnum.__str__`;
  - `FromValue(s)`: the lookup `Enum(s)`. It is `None` where Python raises `ValueError`.

  `FromValue` is proved to find exactly the members whose value is `s`. This makes the values
  pairwise distinct. `ToString` is proved to round-trip through `FromValue`.

The fetched JSON is modelled as a sequence of `RawEntry` values. Each field is an `Option<string>`, and
`None` stands for JSON `null`. The cleaning code also drops entries with a `null` name.

## Model

| member | source | states |
|---|---|---|
| `Enums.SupplyType.FromValue` | src/app/core/enums.py:10-13 | `SupplyType(s)` yields member `m` exactly when `m`'s value is `s`. It fails for every other string, and no two members share a value. |
| `Enums.SupplyType.ToString` | src/app/core/enums.py:5-7 | `str(m)` is the string whose lookup gives back `m`, i.e. `m`'s value. |
| `Enums.Category.FromValue` | src/app/core/enums.py:16-19 | `Category(s)` yields member `m` exactly when `m`'s value is `s`. It fails for every other string. |
| `Enums.Category.ToString` | src/app/core/enums.py:5-7 | `str(m)` is `m`'s value, and it looks up to `m` again. |
| `Enums.ProductType.FromValue` | src/app/core/enums.py:22-42 | `ProductType(s)` yields member `m` exactly when `m`'s value is `s`, for all thirteen products. It fails for every other string. |
| `Enums.ProductType.ToString` | src/app/core/enums.py:5-7 | `str(m)` is `m`'s value, and it looks up to `m` again. |
| `Enums.FileTypes.FromValue` | src/app/core/enums.py:53-58 | `FileTypes(s)` yields member `m` exactly when `m`'s value is `s`. It fails for every other string. |
| `Enums.FileTypes.ToString` | src/app/core/enums.py:5-7 | `str(m)` is `m`'s value, and it looks up to `m` again. |
| `Enums.IsNotHolidays.FromValue` | src/app/core/enums.py:68-70 | `IsNotHolidays(s)` yields member `m` exactly when `m`'s value is `s`. Otherwise it fails, which the source observes as `ValueError`. |
| `Enums.IsNotHolidays.ToString` | src/app/core/enums.py:5-7 | `str(m)` is `m`'s value, and it looks up to `m` again. |
| `Enums.OpenApis.FromValue` | src/app/core/enums.py:73-74 | `OpenApis(s)` succeeds only for the calendar dataset URL. |
| `Enums.OpenApis.ToString` | src/app/core/enums.py:5-7 | `str(TAIWAN_CALENDAR_API)` is the dataset URL, and it looks up to that member again. |
| `Enums.IsNotHolidaysLabels` | src/app/core/enums.py:68-70 | The `IsNotHolidays` lookup succeeds for exactly the two strings "勞動節" and "軍人節". |
| `Enums.ProductTypeValuesDistinct` | src/app/core/enums.py:22-42 | Two `ProductType` members with the same value are the same member (no aliases). |
| `Enums.SupplyTypeValuesDistinct` | src/app/core/enums.py:10-13 | Two `SupplyType` members with the same value are the same member. |
| `Enums.FileTypesValuesDistinct` | src/app/core/enums.py:53-58 | Two `FileTypes` members with the same value are the same member. |
| `CalendarApi.KeepLabels` | src/app/utils/open_apis.py:21-24 | An entry is kept exactly when its `name` is present and is neither "勞動節" nor "軍人節". A `null` name skips the lookup and appends nothing. A label makes the lookup succeed and appends nothing. Any other name raises `ValueError` and is appended. |
| `CalendarApi.Reshape` | src/app/utils/open_apis.py:25-32 | `date`, `name`, `holidaycategory` and `description` are copied unchanged into `{date, info}`, so `Restore` rebuilds those four fields of the entry. |
| `CalendarApi.Cleaned` | src/app/utils/open_apis.py:18-35 | The cleaned list is never longer than the input. |
| `CalendarApi.CleanedAppend` | src/app/utils/open_apis.py:20-33 | Entries are handled one at a time, independently. Cleaning `a + b` gives the cleaned `a` followed by the cleaned `b`. |
| `CalendarApi.KeptFromExact` | src/app/utils/open_apis.py:20-24 | The kept positions are listed in strictly increasing order. Every kept entry's position appears, and only kept positions appear. |
| `CalendarApi.CleanedAtKept` | src/app/utils/open_apis.py:20-33 | From any starting position, the k-th output entry is the k-th kept entry, reshaped. |
| `CalendarApi.CleanedIsKeptInOrder` | src/app/utils/open_apis.py:18-35 | The output is the in-order subsequence of kept entries, each reshaped. Each entry that has a name and is not an `IsNotHolidays` value yields exactly one output entry, at its place in input order. |
| `CalendarApi.CleanedMembership` | src/app/utils/open_apis.py:20-33 | A holiday is in the output exactly when some kept input entry reshapes to it. |
| `CalendarApi.CleanedDropsNonHolidays` | src/app/utils/open_apis.py:21-24 | No output entry is named "勞動節" or "軍人節" or any other `IsNotHolidays` value. Every output name comes from a named input entry, so entries with a `null` name never appear. |
| `CalendarApi.CleanedFullLength` | src/app/utils/open_apis.py:18-35 | The output is exactly as long as the input when every entry is kept, and only then. |
| `CalendarApi.TaiwanCalendarApi.constructor` | src/app/utils/open_apis.py:8-14 | `url` is the calendar dataset constant and `formant` is the given format (default "json"). `params` holds exactly `year` and `size` (default 1000). |
| `CalendarApi.TaiwanCalendarApi.GetCleanedList` | src/app/utils/open_apis.py:16-35 | The loop over the fetched entries returns exactly `Cleaned` of them. So all the properties above hold of its result. |

## Left out

- `TaiwanCalendarApi.get` (src/app/utils/open_apis.py:37-38): an HTTP request through `requests`. The entries it would return are the parameter `json` of `GetCleanedList`, so the request URL `url/formant` and the query are not modelled.
- The `async` marking of `get_cleaned_list`: it involves no concurrency, so the model is sequential.
- Entries that lack one of the keys `name`, `date`, `holidaycategory` or `description`: every `RawEntry` carries all four fields. In the source a missing `name` always raises `KeyError` out of `get_cleaned_list`. A missing `date`, `holidaycategory` or `description` raises only for an entry that would be kept; entries that are dropped pass silently.
- Keys of a fetched entry other than those four: `RawEntry` does not model them, and the source drops them when it builds the cleaned dictionary.
- Names that are JSON values other than strings or `null`: every field is a string or `null`.
- `LogLevel`, `GmailScopes` and `RedisCacheKey` (src/app/core/enums.py:45-50, 61-65, 77-78): constant strings used only by the logging, mail and cache code, which is not part of this model.
- The daily report resolver, PDF readers, reader factory and document processor (`app.utils.file_processors`): that file is not part of this model. Their tests only pin sample dates, and extraction depends on PDF parsing and floating point.
- The MongoDB document models (src/app/models/daily_reports.py), the FastAPI/Redis bootstrap (src/app/main.py, src/app/api/__init__.py) and the test fixtures: persistence, wall-clock time, configuration and I/O.
