/** The image-generation page as a pure state machine: each browser or network
    event maps the page state to a new state plus the one effect it emits
    (a notice, a POST of the form, or a console log). */
module HomePage {
  import opened Wrappers
  import opened Media
  import opened Names

  /** The opaque handle `URL.createObjectURL` returns for a preview. */
  datatype PreviewHandle = PreviewHandle(id: nat)

  /** The six pieces of React state the page holds. */
  datatype State = State(
    image: Option<File>,
    preview: Option<PreviewHandle>,
    pokemon: string,
    resultImage: Option<string>,
    loading: bool,
    pokemonList: seq<string>)

  /** The state at mount: nothing picked, nothing selected, no result, not loading, empty list. */
  const Initial: State := State(None, None, "", None, false, [])

  /** A JSON field read from a response: absent, `null`, a string, or any other
      value (number, boolean, object, array), given by the text it converts to
      and its truthiness. */
  datatype JsField = Missing | Null | Text(text: string) | Other(shown: string, truthy: bool)

  /** A field interpolated into a template literal. */
  function TemplateText(f: JsField): (s: string)
    ensures f.Text? ==> s == f.text
    ensures f.Missing? ==> s == "undefined"
    ensures f.Null? ==> s == "null"
    ensures f.Other? ==> s == f.shown
  {
    match f
    case Missing => "undefined"
    case Null => "null"
    case Text(t) => t
    case Other(shown, _) => shown
  }

  /** JavaScript truthiness of a field: absent and `null` are falsy, a string is
      truthy when non-empty, any other value as it says. */
  predicate Truthy(f: JsField) {
    match f
    case Missing => false
    case Null => false
    case Text(t) => t != ""
    case Other(_, truthy) => truthy
  }

  /** The multipart form posted to the generation service. */
  datatype FormData = FormData(file: File, pokemon: string)

  /** How the generation request ended: a response carrying the `image` field,
      or an error carrying the response's `error` field and the transport message. */
  datatype Outcome =
    | Succeeded(image: JsField)
    | Failed(serverError: JsField, message: string)

  /** How the catalog fetch ended: the raw names of the results, or an error. */
  datatype CatalogOutcome = Fetched(names: seq<string>) | FetchFailed

  /** What a transition does outside the state. */
  datatype Effect =
    | Quiet
    | Alert(text: string)
    | Post(form: FormData)
    | LogFailure

  /** The events the page reacts to. */
  datatype Event =
    | PickFile(file: Option<File>, handle: PreviewHandle)
    | SelectPokemon(value: string)
    | ClickGenerate
    | RequestSettled(outcome: Outcome)
    | CatalogLoaded(catalog: CatalogOutcome)

  datatype Transition = Transition(state: State, effect: Effect)

  const BadTypeNotice: string := "Only PNG or JPEG images are allowed"
  const MissingInputNotice: string := "Please upload a PNG or JPEG image and select a Pokémon"
  const FailurePrefix: string := "Failed to generate image: "

  /** The file input's change handler. An accepted pick replaces the image and
      its preview and nothing else; any other pick raises a notice and changes nothing. */
  function HandleImageChange(s: State, file: Option<File>, handle: PreviewHandle): (t: Transition)
    ensures Accepts(file) ==> t.state.image == file && t.state.preview == Some(handle) && t.effect == Quiet
    ensures !Accepts(file) ==> t.state == s && t.effect == Alert(BadTypeNotice)
    ensures t.state.pokemon == s.pokemon && t.state.resultImage == s.resultImage
    ensures t.state.loading == s.loading && t.state.pokemonList == s.pokemonList
  {
    if Accepts(file) then Transition(s.(image := file, preview := Some(handle)), Quiet)
    else Transition(s, Alert(BadTypeNotice))
  }

  /** The select's change handler: only the chosen name changes. */
  function HandleSelect(s: State, value: string): (t: Transition)
    ensures t.state.pokemon == value && t.effect == Quiet
    ensures t.state.image == s.image && t.state.preview == s.preview
    ensures t.state.resultImage == s.resultImage && t.state.loading == s.loading
    ensures t.state.pokemonList == s.pokemonList
  {
    Transition(s.(pokemon := value), Quiet)
  }

  /** The submit guard: an image is held and a non-empty name is selected. */
  predicate ReadyToSubmit(s: State) {
    s.image.Some? && s.pokemon != ""
  }

  /** The submit handler up to the request. A failing guard raises a notice and
      changes nothing; otherwise loading is raised and the form is posted. */
  function HandleSubmit(s: State): (t: Transition)
    ensures !ReadyToSubmit(s) ==> t.state == s && t.effect == Alert(MissingInputNotice)
    ensures ReadyToSubmit(s) ==> t.state.loading && t.effect == Post(FormData(s.image.value, s.pokemon))
    ensures t.state.(loading := s.loading) == s
  {
    if !ReadyToSubmit(s) then Transition(s, Alert(MissingInputNotice))
    else Transition(s.(loading := true), Post(FormData(s.image.value, s.pokemon)))
  }

  /** The error text shown on failure: the response's `error` field when truthy,
      otherwise the transport message. */
  function ErrorDetail(serverError: JsField, message: string): string {
    if Truthy(serverError) then TemplateText(serverError) else message
  }

  /** The submit handler after the request: a success shows the payload as a
      data URL, a failure raises a notice; either way loading is lowered. */
  function HandleSettled(s: State, outcome: Outcome): (t: Transition)
    ensures !t.state.loading
    ensures outcome.Succeeded? ==>
      t.state.resultImage == Some(DataUrl(TemplateText(outcome.image))) && t.effect == Quiet
    ensures outcome.Failed? ==> t.state.resultImage == s.resultImage
    ensures outcome.Failed? && Truthy(outcome.serverError) ==>
      t.effect == Alert(FailurePrefix + TemplateText(outcome.serverError))
    ensures outcome.Failed? && !Truthy(outcome.serverError) ==>
      t.effect == Alert(FailurePrefix + outcome.message)
    ensures t.state.image == s.image && t.state.preview == s.preview
    ensures t.state.pokemon == s.pokemon && t.state.pokemonList == s.pokemonList
  {
    match outcome
    case Succeeded(image) =>
      Transition(s.(resultImage := Some(DataUrl(TemplateText(image))), loading := false), Quiet)
    case Failed(serverError, message) =>
      Transition(s.(loading := false), Alert(FailurePrefix + ErrorDetail(serverError, message)))
  }

  /** The mount effect's handling of the catalog fetch. A fetched list replaces the
      names with their capitalised forms; a failure is logged and changes nothing. */
  function HandleCatalog(s: State, catalog: CatalogOutcome): (t: Transition)
    ensures catalog.Fetched? ==>
      && |t.state.pokemonList| == |catalog.names|
      && (forall i :: 0 <= i < |catalog.names| ==> t.state.pokemonList[i] == Capitalize(catalog.names[i]))
      && t.effect == Quiet
    ensures catalog.FetchFailed? ==> t.state == s && t.effect == LogFailure
    ensures t.state.(pokemonList := s.pokemonList) == s
  {
    match catalog
    case Fetched(names) => Transition(s.(pokemonList := CapitalizeAll(names)), Quiet)
    case FetchFailed => Transition(s, LogFailure)
  }

  /** The page's reaction to one event. The button is disabled while loading,
      so a click then does nothing. */
  function Step(s: State, e: Event): (t: Transition)
    ensures t.effect.Post? ==> e.ClickGenerate? && !s.loading && t.state.loading
    ensures e.ClickGenerate? && s.loading ==> t == Transition(s, Quiet)
    ensures t.state.loading != s.loading ==> (e.ClickGenerate? && t.effect.Post?) || e.RequestSettled?
    ensures t.state.resultImage != s.resultImage ==> e.RequestSettled? && e.outcome.Succeeded?
    ensures t.state.image != s.image || t.state.preview != s.preview ==> e.PickFile? && Accepts(e.file)
    ensures t.state.pokemon != s.pokemon ==> e.SelectPokemon?
    ensures t.state.pokemonList != s.pokemonList ==> e.CatalogLoaded? && e.catalog.Fetched?
  {
    match e
    case PickFile(file, handle) => HandleImageChange(s, file, handle)
    case SelectPokemon(value) => HandleSelect(s, value)
    case ClickGenerate => if s.loading then Transition(s, Quiet) else HandleSubmit(s)
    case RequestSettled(outcome) => HandleSettled(s, outcome)
    case CatalogLoaded(catalog) => HandleCatalog(s, catalog)
  }

  /** A pick of a type outside the allow-list (including no file, `image/jpg`
      and `image/gif`) leaves the state as it was and only raises the notice. */
  lemma RejectedPickChangesNothing(s: State, file: Option<File>, handle: PreviewHandle)
    requires file.None? || file.value.mimeType !in {"image/png", "image/jpeg"}
    ensures Step(s, PickFile(file, handle)) == Transition(s, Alert(BadTypeNotice))
  {
  }

  /** A submit that passes the guard starts a request, and whichever way the
      request ends, loading is lowered again and nothing but the result changes. */
  lemma LoadingBracketsRequest(s: State, outcome: Outcome)
    requires !s.loading && ReadyToSubmit(s)
    ensures Step(s, ClickGenerate).state.loading
    ensures Step(s, ClickGenerate).effect == Post(FormData(s.image.value, s.pokemon))
    ensures Step(Step(s, ClickGenerate).state, RequestSettled(outcome)).state.(resultImage := s.resultImage) == s
  {
  }

  /** A typical run: load the catalog, pick a PNG, select Pikachu, generate. */
  lemma PikachuScenario(handle: PreviewHandle, payload: string)
    ensures
      var png := File("photo.png", "image/png");
      var s1 := Step(Initial, CatalogLoaded(Fetched(["bulbasaur", "pikachu"]))).state;
      var s2 := Step(s1, PickFile(Some(png), handle)).state;
      var s3 := Step(s2, SelectPokemon("Pikachu")).state;
      var t4 := Step(s3, ClickGenerate);
      var s5 := Step(t4.state, RequestSettled(Succeeded(Text(payload)))).state;
      && s1.pokemonList == ["Bulbasaur", "Pikachu"]
      && t4.effect == Post(FormData(png, "Pikachu"))
      && t4.state.loading
      && s5.resultImage == Some("data:image/png;base64," + payload)
      && !s5.loading
  {
    assert Capitalize("bulbasaur") == "Bulbasaur";
    assert Capitalize("pikachu") == "Pikachu";
  }
}
