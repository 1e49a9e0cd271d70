/** The record extractor: from the parsed career-fair export to the list of
    companies, or the label of the first check that failed. */
module Extractor {
  import opened Json
  import opened Results

  /** One employer's listing. Scalars are copied verbatim; the four
      sequences keep source order and duplicates. */
  datatype CompanyEntry = CompanyEntry(
    name: string,
    description: string,
    location: string,
    website: string,
    logo_url: string,
    work_authorization: string,
    job_titles: string,
    job_types: seq<string>,
    majors: seq<string>,
    school_years: seq<string>,
    attending_sessions: seq<string>)

  /** The label of the whole-document error. */
  const InvalidData := "invalid json data"

  /** `v2s`: the inner text of a JSON string, and `err` for any other value
      (including the `Null` that a missing key produces). */
  function ValueToString(v: Json, err: string): (r: Result<string>)
    ensures r.Ok? <==> v.Str?
    ensures r.Ok? ==> r.value == v.s
    ensures r.Err? ==> r.error == err
  {
    match v
    case Str(inner) => Ok(inner)
    case _ => Err(err)
  }

  /** The array-shape check of one sequence field: its items, or `err`. */
  function ArrayItems(v: Json, err: string): (r: Result<seq<Json>>)
    ensures r.Ok? <==> v.Arr?
    ensures r.Ok? ==> r.value == v.items
    ensures r.Err? ==> r.error == err
  {
    match v
    case Arr(items) => Ok(items)
    case _ => Err(err)
  }

  /** True when `out` is `v`, an array, with every element replaced by the
      string under `key`. */
  ghost predicate ProjectsTo(v: Json, key: string, out: seq<string>)
  {
    && v.Arr?
    && |out| == |v.items|
    && forall i :: 0 <= i < |v.items| ==> Index(v.items[i], key) == Str(out[i])
  }

  /** True when `v` is an array every element of which holds a string under `key`. */
  ghost predicate EveryItemHas(v: Json, key: string)
  {
    v.Arr? && forall i :: 0 <= i < |v.items| ==> Index(v.items[i], key).Str?
  }

  /** The projection of one array field: `ValueToString` applied to the
      member `key` of every element, collected in order; `err` as soon as
      one element lacks a string there. */
  function ProjectStrings(items: seq<Json>, key: string, err: string): (r: Result<seq<string>>)
    ensures r.Ok? <==> EveryItemHas(Arr(items), key)
    ensures r.Ok? ==> ProjectsTo(Arr(items), key, r.value)
    ensures r.Err? ==> r.error == err
    ensures items == [] ==> r == Ok([])
  {
    if items == [] then Ok([])
    else
      var head :- ValueToString(Index(items[0], key), err);
      var tail :- ProjectStrings(items[1..], key, err);
      Ok([head] + tail)
  }

  /** The body of the extraction loop for one entry. The seven scalars are
      read first, then the four fields are checked to be arrays, and only
      then are the per-element results of the four projections unwrapped. */
  function ExtractEntry(entry: Json): (r: Result<CompanyEntry>)
    ensures r.Ok? ==>
      var employer := Index(entry, "employer");
      && Index(employer, "name") == Str(r.value.name)
      && Index(entry, "company_description") == Str(r.value.description)
      && Index(entry, "location_name") == Str(r.value.location)
      && Index(employer, "website") == Str(r.value.website)
      && Index(employer, "logo_url") == Str(r.value.logo_url)
      && Index(entry, "work_authorization_requirements") == Str(r.value.work_authorization)
      && Index(entry, "job_titles") == Str(r.value.job_titles)
    ensures r.Ok? ==>
      && ProjectsTo(Index(entry, "job_types"), "name", r.value.job_types)
      && ProjectsTo(Index(entry, "majors"), "name", r.value.majors)
      && ProjectsTo(Index(entry, "school_years"), "name", r.value.school_years)
      && ProjectsTo(Index(entry, "attending_career_fair_sessions"), "display_name", r.value.attending_sessions)
  {
    var employer := Index(entry, "employer");
    var name :- ValueToString(Index(employer, "name"), "name");
    var description :- ValueToString(Index(entry, "company_description"), "description");
    var location :- ValueToString(Index(entry, "location_name"), "location");
    var website :- ValueToString(Index(employer, "website"), "website");
    var logoUrl :- ValueToString(Index(employer, "logo_url"), "logo_url");
    var workAuthorization :- ValueToString(Index(entry, "work_authorization_requirements"), "work_auth");
    var jobTitles :- ValueToString(Index(entry, "job_titles"), "job_titles");

    var jobTypeItems :- ArrayItems(Index(entry, "job_types"), "job_types");
    var jobTypes := ProjectStrings(jobTypeItems, "name", "job_type");
    var majorItems :- ArrayItems(Index(entry, "majors"), "majors");
    var majors := ProjectStrings(majorItems, "name", "major");
    var schoolYearItems :- ArrayItems(Index(entry, "school_years"), "school_years");
    var schoolYears := ProjectStrings(schoolYearItems, "name", "school_year");
    var sessionItems :- ArrayItems(Index(entry, "attending_career_fair_sessions"), "sessions");
    var sessions := ProjectStrings(sessionItems, "display_name", "session");

    var jobTypesValue :- jobTypes;
    var majorsValue :- majors;
    var schoolYearsValue :- schoolYears;
    var sessionsValue :- sessions;
    Ok(CompanyEntry(name, description, location, website, logoUrl, workAuthorization, jobTitles,
                    jobTypesValue, majorsValue, schoolYearsValue, sessionsValue))
  }

  /** The label an entry is rejected with, if any, by the fixed priority:
      the seven scalars, then the four array shapes, then the elements of
      the four arrays. */
  ghost function ExpectedFailure(entry: Json): (r: Option<string>)
  {
    var employer := Index(entry, "employer");
    if !Index(employer, "name").Str? then Some("name")
    else if !Index(entry, "company_description").Str? then Some("description")
    else if !Index(entry, "location_name").Str? then Some("location")
    else if !Index(employer, "website").Str? then Some("website")
    else if !Index(employer, "logo_url").Str? then Some("logo_url")
    else if !Index(entry, "work_authorization_requirements").Str? then Some("work_auth")
    else if !Index(entry, "job_titles").Str? then Some("job_titles")
    else if !Index(entry, "job_types").Arr? then Some("job_types")
    else if !Index(entry, "majors").Arr? then Some("majors")
    else if !Index(entry, "school_years").Arr? then Some("school_years")
    else if !Index(entry, "attending_career_fair_sessions").Arr? then Some("sessions")
    else if !EveryItemHas(Index(entry, "job_types"), "name") then Some("job_type")
    else if !EveryItemHas(Index(entry, "majors"), "name") then Some("major")
    else if !EveryItemHas(Index(entry, "school_years"), "name") then Some("school_year")
    else if !EveryItemHas(Index(entry, "attending_career_fair_sessions"), "display_name") then Some("session")
    else None
  }

  /** An entry is rejected exactly when one of its checks fails, and the label
      reported is that of the first failing check in the fixed order. */
  lemma ExtractEntryReportsFirstFailure(entry: Json)
    ensures ExtractEntry(entry).Err? <==> ExpectedFailure(entry).Some?
    ensures ExtractEntry(entry).Err? ==> ExtractEntry(entry).error == ExpectedFailure(entry).value
  {
  }

  /** An entry whose paths hold exactly the fields of `company` is extracted
      to `company`: together with the postcondition of `ExtractEntry`, the
      company is determined by the entry. */
  lemma ExtractEntryAccepts(entry: Json, company: CompanyEntry)
    requires
      var employer := Index(entry, "employer");
      && Index(employer, "name") == Str(company.name)
      && Index(entry, "company_description") == Str(company.description)
      && Index(entry, "location_name") == Str(company.location)
      && Index(employer, "website") == Str(company.website)
      && Index(employer, "logo_url") == Str(company.logo_url)
      && Index(entry, "work_authorization_requirements") == Str(company.work_authorization)
      && Index(entry, "job_titles") == Str(company.job_titles)
    requires ProjectsTo(Index(entry, "job_types"), "name", company.job_types)
    requires ProjectsTo(Index(entry, "majors"), "name", company.majors)
    requires ProjectsTo(Index(entry, "school_years"), "name", company.school_years)
    requires ProjectsTo(Index(entry, "attending_career_fair_sessions"), "display_name", company.attending_sessions)
    ensures ExtractEntry(entry) == Ok(company)
  {
    ExtractEntryReportsFirstFailure(entry);
    var c := ExtractEntry(entry).value;
    assert c.job_types == company.job_types;
    assert c.majors == company.majors;
    assert c.school_years == company.school_years;
    assert c.attending_sessions == company.attending_sessions;
  }

  /** The entry of the sample export: one employer with one item in each array. */
  function SampleEntry(): (r: Json)
  {
    Obj(map[
      "employer" := Obj(map["name" := Str("Acme"), "website" := Str("acme.com"), "logo_url" := Str("x.png")]),
      "company_description" := Str("d"),
      "location_name" := Str("NYC"),
      "work_authorization_requirements" := Str("none"),
      "job_titles" := Str("SWE"),
      "job_types" := Arr([Obj(map["name" := Str("Intern")])]),
      "majors" := Arr([Obj(map["name" := Str("CS")])]),
      "school_years" := Arr([Obj(map["name" := Str("Junior")])]),
      "attending_career_fair_sessions" := Arr([Obj(map["display_name" := Str("Morning")])])])
  }

  /** The sample entry yields the company the note for `Acme` is rendered from. */
  lemma SampleEntryExtracts()
    ensures ExtractEntry(SampleEntry()) ==
      Ok(CompanyEntry("Acme", "d", "NYC", "acme.com", "x.png", "none", "SWE",
                      ["Intern"], ["CS"], ["Junior"], ["Morning"]))
  {
    var entry := SampleEntry();
    var employer := Index(entry, "employer");
    assert Index(employer, "name") == Str("Acme");
    assert Index(employer, "website") == Str("acme.com");
    assert Index(employer, "logo_url") == Str("x.png");
    assert ProjectsTo(Index(entry, "job_types"), "name", ["Intern"]);
    assert ProjectsTo(Index(entry, "majors"), "name", ["CS"]);
    assert ProjectsTo(Index(entry, "school_years"), "name", ["Junior"]);
    assert ProjectsTo(Index(entry, "attending_career_fair_sessions"), "display_name", ["Morning"]);
    ExtractEntryAccepts(entry, CompanyEntry("Acme", "d", "NYC", "acme.com", "x.png", "none", "SWE",
                                            ["Intern"], ["CS"], ["Junior"], ["Morning"]));
  }

  /** A bad `job_types` element is reported only once all four fields are
      arrays: with `majors` absent, the entry fails with "majors". */
  lemma ShapeErrorsComeBeforeElementErrors()
    ensures ExtractEntry(Obj(SampleEntry().members["job_types" := Arr([Null])] - {"majors"})) == Err("majors")
    ensures ExtractEntry(Obj(SampleEntry().members["job_types" := Arr([Null])])) == Err("job_type")
  {
  }

  /** The extraction loop: every entry of `results`, in order, or the first
      error met. */
  method Extract(doc: Json) returns (r: Result<seq<CompanyEntry>>)
    ensures !Index(doc, "results").Arr? ==> r == Err(InvalidData)
    ensures Index(doc, "results").Arr? ==>
      var entries := Index(doc, "results").items;
      r.Ok? <==> forall i :: 0 <= i < |entries| ==> ExtractEntry(entries[i]).Ok?
    ensures r.Ok? ==>
      var entries := Index(doc, "results").items;
      && |r.value| == |entries|
      && forall i :: 0 <= i < |entries| ==> ExtractEntry(entries[i]) == Ok(r.value[i])
    ensures r.Err? && Index(doc, "results").Arr? ==>
      var entries := Index(doc, "results").items;
      exists k :: 0 <= k < |entries| && ExtractEntry(entries[k]) == Err(r.error)
                  && forall j :: 0 <= j < k ==> ExtractEntry(entries[j]).Ok?
  {
    var entries: seq<Json>;
    match Index(doc, "results") {
      case Arr(items) => entries := items;
      case _ => return Err(InvalidData);
    }

    var companies: seq<CompanyEntry> := [];
    var i := 0;
    while i < |entries|
      invariant 0 <= i <= |entries|
      invariant |companies| == i
      invariant forall j :: 0 <= j < i ==> ExtractEntry(entries[j]) == Ok(companies[j])
    {
      var company :- ExtractEntry(entries[i]);
      companies := companies + [company];
      i := i + 1;
    }
    return Ok(companies);
  }
}
