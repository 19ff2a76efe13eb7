/** The records the admin panel moves between the `developers` table, its
    edit form and the payload of an insert or an update. */
module Records {
  import opened Common
  import opened Text
  import opened FormCodec

  /** One row of the `developers` table as the site reads it. A text column
      that is `null` is held as "". `skills`, the integer columns and `rating`
      keep their `null` as `None`. */
  datatype DeveloperRow = DeveloperRow(
    id: string,
    full_name: string,
    email: string,
    phone: string,
    location: string,
    bio: string,
    skills: Option<seq<string>>,
    photo_url: string,
    github_url: string,
    linkedin_url: string,
    portfolio_url: string,
    availability_status: string,
    experience_years: Option<int>,
    hourly_rate: Option<int>,
    projects_completed: Option<int>,
    rating: Option<real>)

  /** The payload `handleSubmit` sends: the form with its skills parsed into a
      list and its numbers read. */
  datatype Profile = Profile(
    full_name: string,
    email: string,
    phone: string,
    location: string,
    bio: string,
    skills: seq<string>,
    photo_url: string,
    github_url: string,
    linkedin_url: string,
    portfolio_url: string,
    availability_status: string,
    experience_years: int,
    hourly_rate: int,
    projects_completed: int,
    rating: real)

  /** The admin form's `formData`: skills as one comma-separated text, the
      integer inputs as `NumField`s; `rating` has no input and is carried over. */
  datatype FormData = FormData(
    full_name: string,
    email: string,
    phone: string,
    location: string,
    bio: string,
    skills: string,
    photo_url: string,
    github_url: string,
    linkedin_url: string,
    portfolio_url: string,
    availability_status: string,
    experience_years: NumField,
    hourly_rate: NumField,
    projects_completed: NumField,
    rating: Option<real>)

  /** The outcome of `select('*')` on the `developers` table. */
  datatype FetchResult = FetchFailed | Fetched(data: Option<seq<DeveloperRow>>)

  /** The list a successful fetch installs: the rows, or `[]` for `null`. */
  function RowsOrEmpty(data: Option<seq<DeveloperRow>>): (rows: seq<DeveloperRow>)
    ensures data.Some? ==> rows == data.value
    ensures data.None? ==> rows == []
  {
    match data
    case Some(xs) => xs
    case None => []
  }

  const DefaultLocation: string := "Mogadishu, Somalia"
  const DefaultStatus: string := "available"
  const DefaultRating: real := 5.0

  /** The `name` attribute of each input the form renders. */
  datatype InputName =
    | FullName | Email | Phone | Location | Bio | Skills
    | GithubUrl | LinkedinUrl | PortfolioUrl | AvailabilityStatus
    | ExperienceYears | HourlyRate | ProjectsCompleted

  /** What one field of the form holds. */
  datatype FieldValue = Text(text: string) | Number(number: NumField)

  predicate IsNumberInput(name: InputName) {
    name == ExperienceYears || name == HourlyRate || name == ProjectsCompleted
  }

  /** The field an input is bound to. */
  function Get(form: FormData, name: InputName): FieldValue {
    match name
    case FullName => Text(form.full_name)
    case Email => Text(form.email)
    case Phone => Text(form.phone)
    case Location => Text(form.location)
    case Bio => Text(form.bio)
    case Skills => Text(form.skills)
    case GithubUrl => Text(form.github_url)
    case LinkedinUrl => Text(form.linkedin_url)
    case PortfolioUrl => Text(form.portfolio_url)
    case AvailabilityStatus => Text(form.availability_status)
    case ExperienceYears => Number(form.experience_years)
    case HourlyRate => Number(form.hourly_rate)
    case ProjectsCompleted => Number(form.projects_completed)
  }

  /** An input event always delivers text; a number input's text is kept as typed. */
  function Entered(name: InputName, value: string): (v: FieldValue)
    ensures IsNumberInput(name) <==> v.Number?
  {
    if IsNumberInput(name) then Number(Typed(value)) else Text(value)
  }

  /** `{...prev, [name]: value}`: the named field takes the entered value and
      every other field, the photo and the rating included, is kept. */
  function SetField(form: FormData, name: InputName, value: string): (r: FormData)
    ensures Get(r, name) == Entered(name, value)
    ensures forall other :: other != name ==> Get(r, other) == Get(form, other)
    ensures r.photo_url == form.photo_url && r.rating == form.rating
  {
    match name
    case FullName => form.(full_name := value)
    case Email => form.(email := value)
    case Phone => form.(phone := value)
    case Location => form.(location := value)
    case Bio => form.(bio := value)
    case Skills => form.(skills := value)
    case GithubUrl => form.(github_url := value)
    case LinkedinUrl => form.(linkedin_url := value)
    case PortfolioUrl => form.(portfolio_url := value)
    case AvailabilityStatus => form.(availability_status := value)
    case ExperienceYears => form.(experience_years := Typed(value))
    case HourlyRate => form.(hourly_rate := Typed(value))
    case ProjectsCompleted => form.(projects_completed := Typed(value))
  }

  /** Typing into the same input twice keeps only the second value. */
  lemma SetFieldOverwrites(form: FormData, name: InputName, a: string, b: string)
    ensures SetField(SetField(form, name, a), name, b) == SetField(form, name, b)
  {
  }

  /** Edits to two different inputs do not interfere, whatever their order. */
  lemma SetFieldCommutes(form: FormData, m: InputName, a: string, n: InputName, b: string)
    requires m != n
    ensures SetField(SetField(form, m, a), n, b) == SetField(SetField(form, n, b), m, a)
  {
  }

  /** The blank form `resetForm` installs. */
  function DefaultForm(): (f: FormData)
    ensures f.location == DefaultLocation && f.availability_status == DefaultStatus
    ensures f.rating == Some(DefaultRating)
  {
    FormData("", "", "", DefaultLocation, "", "", "", "", "", "", DefaultStatus,
      Num(0), Num(0), Num(0), Some(DefaultRating))
  }

  /** The blank form saves as an empty profile with the default location,
      status and rating. */
  lemma DefaultFormShape()
    ensures ShapeRecord(DefaultForm()) ==
      Profile("", "", "", DefaultLocation, "", [], "", "", "", "", DefaultStatus, 0, 0, 0, DefaultRating)
  {
    ParseNoSkills();
  }

  function NumberOf(column: Option<int>): NumField {
    match column
    case Some(n) => Num(n)
    case None => Missing
  }

  /** `developerData` of `handleSubmit`: the skills text parsed into a list,
      each integer read with `parseInt(...) || 0`, the rating defaulted, the
      other fields copied. */
  function ShapeRecord(form: FormData): (p: Profile)
    ensures AllSkills(p.skills)
    ensures p.rating != 0.0
  {
    Profile(form.full_name, form.email, form.phone, form.location, form.bio,
      ParseSkills(form.skills), form.photo_url, form.github_url, form.linkedin_url,
      form.portfolio_url, form.availability_status,
      IntOrZero(form.experience_years), IntOrZero(form.hourly_rate),
      IntOrZero(form.projects_completed), RatingOrDefault(form.rating))
  }

  /** `handleEdit`'s form: the row spread over the form, with the skills list
      joined by ", " (or "" when the list is null). */
  function FormFromRow(row: DeveloperRow): (f: FormData)
    ensures row.skills.None? ==> f.skills == ""
    ensures row.skills.Some? && AllSkills(row.skills.value) ==> ParseSkills(f.skills) == row.skills.value
    ensures f.photo_url == row.photo_url && f.rating == row.rating
  {
    FormData(row.full_name, row.email, row.phone, row.location, row.bio,
      SkillsText(row.skills), row.photo_url, row.github_url, row.linkedin_url,
      row.portfolio_url, row.availability_status,
      NumberOf(row.experience_years), NumberOf(row.hourly_rate),
      NumberOf(row.projects_completed), row.rating)
  }

  /** The row the table holds once a profile has been written under `id`. */
  function StoredRow(id: string, p: Profile): (row: DeveloperRow)
    ensures row.id == id && row.skills == Some(p.skills) && row.rating == Some(p.rating)
  {
    DeveloperRow(id, p.full_name, p.email, p.phone, p.location, p.bio, Some(p.skills),
      p.photo_url, p.github_url, p.linkedin_url, p.portfolio_url, p.availability_status,
      Some(p.experience_years), Some(p.hourly_rate), Some(p.projects_completed), Some(p.rating))
  }

  /** Opening a saved developer for editing and saving it untouched writes
      back exactly what was saved. */
  lemma EditThenSaveKeepsProfile(id: string, p: Profile)
    requires AllSkills(p.skills) && p.rating != 0.0
    ensures ShapeRecord(FormFromRow(StoredRow(id, p))) == p
  {
    var f := FormFromRow(StoredRow(id, p));
    assert ParseSkills(f.skills) == p.skills;
  }

  /** Every profile `handleSubmit` sends survives the same edit-and-save. */
  lemma SavedProfileIsStable(id: string, form: FormData)
    ensures ShapeRecord(FormFromRow(StoredRow(id, ShapeRecord(form)))) == ShapeRecord(form)
  {
    EditThenSaveKeepsProfile(id, ShapeRecord(form));
  }
}
