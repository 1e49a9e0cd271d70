# fair_renderer record extractor, in Dafny

`fair_renderer` turns a JSON export of career-fair employer listings into one
note per company. The program has one piece of real logic, the record
extractor. It takes the parsed JSON document and requires an array under
`results`. For every element of that array it builds a `CompanyEntry`, or it
rejects the whole batch with a label that names the field that failed.

An entry is built in two steps:

- seven scalar fields are read from fixed paths. These are `employer.name`,
  `company_description`, `location_name`, `employer.website`,
  `employer.logo_url`, `work_authorization_requirements` and `job_titles`.
  Each must be a JSON string, which is copied verbatim;
- four sequence fields are read from arrays. `job_types`, `majors` and
  `school_years` keep the `name` string of every element, and
  `attending_career_fair_sessions` keeps the `display_name` string of every
  element.

The order of the checks is subtle. All four fields are checked to be arrays
before any element error is reported. So a bad `job_types` element surfaces
only when `majors`, `school_years` and the sessions are arrays too.

Files:

- `json.dfy` (module `Json`): the JSON value and `Index`. `Index` behaves
  like `value["key"]`: it gives `Null` for a missing key or a non-object.
- `results.dfy` (module `Results`): `Option`, and a `Result` whose error is a
  label string. `Result` works with `:-`, the way the program uses `?`.
- `extractor.dfy` (module `Extractor`): `CompanyEntry`, the `v2s` helper
  (`ValueToString`), the per-array projection (`ProjectStrings`), the loop
  body for one entry (`ExtractEntry`), and the loop over `results`
  (`Extract`, a method with a `while` loop). The fixed check order is
  written out independently as `ExpectedFailure`, an if-chain over the
  fifteen checks. A lemma ties `ExtractEntry` to it.

Three points about the code shape the model:

- The program has no schema merger or note renderer. src/main.rs:147 only
  converts the template's bytes with a library call, and the note text at
  src/main.rs:168-169 is a fixed stub.
- A sequence field that is missing fails like one that is not an array,
  because a missing key indexes to `Null`.
- Errors carry the field label only. The entry index is not part of the
  error, as the comment at src/main.rs:100 notes.

## Model

| member | source | states |
|---|---|---|
| `Extractor.ValueToString` | src/main.rs:91-96 | succeeds exactly when the value is a JSON string and then returns its inner text; any other value, including the `Null` of a missing key, fails with the given label |
| `Extractor.ArrayItems` | src/main.rs:110-125 | the array-shape check of one sequence field: succeeds exactly on an array, with its items; otherwise fails with the field's label (`job_types`, `majors`, `school_years`, `sessions`) |
| `Extractor.ProjectStrings` | src/main.rs:110-125 | succeeds exactly when every element holds a string under the key; the result then has the array's length and element i is element i's string, so order and duplicates are kept; an empty array gives an empty sequence; a failure carries the element label (`job_type`, `major`, `school_year`, `session`) |
| `Extractor.ExtractEntry` | src/main.rs:102-139 | on success every scalar equals the string at its fixed path (`website` from `employer.website`, `work_authorization` from `work_authorization_requirements`, and so on), and every sequence field is its source array projected through `name`, or `display_name` for sessions |
| `Extractor.ExtractEntryReportsFirstFailure` | src/main.rs:102-138 | an entry is rejected exactly when one of its fifteen checks fails, and the label is that of the first failure in the fixed order: the seven scalars, then the four array shapes, then the elements of the four arrays |
| `Extractor.ExtractEntryAccepts` | src/main.rs:102-139 | conversely, an entry whose paths hold exactly a company's strings and arrays is extracted to that company, so the company is determined by the entry |
| `Extractor.SampleEntryExtracts` | src/main.rs:101-139 | the sample employer `Acme`, with one item in each array, is extracted to the expected company field by field |
| `Extractor.ShapeErrorsComeBeforeElementErrors` | src/main.rs:110-138 | an illustration of the check order on the sample entry, not a separate result: with a bad `job_types` element, a missing `majors` is reported as `majors`, and with `majors` present the error is `job_type` |
| `Extractor.Extract` | src/main.rs:83-140 | without an array under `results` the result is the error `invalid json data`; otherwise it succeeds exactly when every entry is accepted, and then company i is entry i's extraction, with as many companies as entries; on failure the error is that of the first rejected entry, and no list is returned |

## Left out

- Command-line flag handling (src/main.rs:42-74, 151-159) is left out; it only reads `std::env::args`.
- Reading the input file and parsing the JSON text (src/main.rs:76-81) are left out. They are file I/O and a foreign parser. The model starts from an already-parsed value.
- Reading the template and converting its bytes with `serde_yaml_ng::to_value` (src/main.rs:146-147) are left out. They are file I/O and a library call, and no schema merging happens there.
- `copy_dir_recurse` (src/main.rs:184-195) is a recursive filesystem copy and is left out.
- The per-company write with its `error{i}.md` fallback (src/main.rs:165-179) is left out. It is a filesystem write whose failure depends on the OS, and the text written is a fixed stub.
- `TEMPLATE_MD` (src/main.rs:204-218) is left out because nothing uses it.
- The `ArgumentError` type and its conversions (src/main.rs:5-25) are left out. Errors are modelled as their bare label strings, without the `Argument error: ` display prefix.
- JSON numbers are modelled as integers, not as 64-bit integers or floats. The extractor only asks whether a value is a string, so a number's value never matters.
