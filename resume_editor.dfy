/**
 * The résumé editor's content edits and its save/generate decisions. Every
 * edit builds a new content record from the old one (spread, `filter`,
 * copy-then-assign), so the edits are functions on values.
 */
module ResumeEditor {
  import opened Wrappers
  import opened Text
  import opened JsValue
  import Facade
  import Client
  import ApiPaths
  import Routes

  /** One list entry: its own keys and their values, as the spread `{ ...entry, [field]: value }` sees it. */
  type Entry = map<string, Value>

  /** `ResumeContent`: each field may be absent. */
  datatype ResumeContent = ResumeContent(
    basicInfo: Value,
    education: Option<seq<Entry>>,
    workExperience: Option<seq<Entry>>,
    projects: Option<seq<Entry>>,
    skills: Option<seq<Entry>>,
    certifications: Value,
    customSections: Value)

  datatype Section = EducationList | WorkList | ProjectList | SkillList

  function BasicInfoKeys(): seq<string> {
    ["name", "email", "phone", "location", "title", "summary", "job_intention", "self_introduction"]
  }

  /** The editor's starting content: every basic-info field '' and four empty lists. */
  function InitialContent(): (c: ResumeContent)
    ensures c.basicInfo.Obj? && c.basicInfo.fields.Keys == set k | k in BasicInfoKeys()
    ensures forall k | k in c.basicInfo.fields :: c.basicInfo.fields[k] == Str("")
    ensures c.education == c.workExperience == c.projects == c.skills == Some([])
  {
    ResumeContent(
      Obj(map["name" := Str(""), "email" := Str(""), "phone" := Str(""), "location" := Str(""),
              "title" := Str(""), "summary" := Str(""), "job_intention" := Str(""),
              "self_introduction" := Str("")]),
      Some([]), Some([]), Some([]), Some([]), Undefined, Undefined)
  }

  /** The `{}` that replaces the content when a generation returns none. */
  function EmptyContent(): ResumeContent {
    ResumeContent(Undefined, None, None, None, None, Undefined, Undefined)
  }

  function ListOf(c: ResumeContent, sec: Section): Option<seq<Entry>> {
    match sec
    case EducationList => c.education
    case WorkList => c.workExperience
    case ProjectList => c.projects
    case SkillList => c.skills
  }

  /** `content.<list> || []`. */
  function Entries(c: ResumeContent, sec: Section): seq<Entry> {
    ListOf(c, sec).GetOr([])
  }

  /** `{ ...content, <list>: l }`. */
  function WithList(c: ResumeContent, sec: Section, l: Option<seq<Entry>>): (r: ResumeContent)
    ensures ListOf(r, sec) == l
    ensures forall other | other != sec :: ListOf(r, other) == ListOf(c, other)
    ensures r.basicInfo == c.basicInfo && r.certifications == c.certifications && r.customSections == c.customSections
  {
    match sec
    case EducationList => c.(education := l)
    case WorkList => c.(workExperience := l)
    case ProjectList => c.(projects := l)
    case SkillList => c.(skills := l)
  }

  /** The sections with an add-blank button and per-field inputs. */
  predicate HasForm(sec: Section) {
    sec != SkillList
  }

  /** The blank entry each add button appends. */
  function Blank(sec: Section): (e: Entry)
    requires HasForm(sec)
    ensures forall k | k in e :: e[k] == Str("") || e[k] == Arr([])
  {
    match sec
    case EducationList => map["school" := Str(""), "degree" := Str(""), "major" := Str("")]
    case WorkList => map["company" := Str(""), "position" := Str(""), "description" := Str("")]
    case ProjectList => map["name" := Str(""), "description" := Str(""), "tech_stack" := Arr([])]
  }

  /** `addEducation`, `addWork`, `addProject`. */
  function AddEntry(c: ResumeContent, sec: Section): (r: ResumeContent)
    requires HasForm(sec)
    ensures |Entries(r, sec)| == |Entries(c, sec)| + 1 && Entries(r, sec)[|Entries(c, sec)|] == Blank(sec)
    ensures r.basicInfo == c.basicInfo
  {
    WithList(c, sec, Some(Entries(c, sec) + [Blank(sec)]))
  }

  /** `updateEducation`, `updateWork`, `updateProject` for an index of a rendered entry. */
  function UpdateEntry(c: ResumeContent, sec: Section, i: nat, field: string, value: Value): (r: ResumeContent)
    requires HasForm(sec) && i < |Entries(c, sec)|
    ensures |Entries(r, sec)| == |Entries(c, sec)| && field in Entries(r, sec)[i]
    ensures Entries(r, sec)[i][field] == value
  {
    var l := Entries(c, sec);
    WithList(c, sec, Some(l[i := l[i][field := value]]))
  }

  /** `list.filter((_, i) => i !== index)`. */
  function Without<T>(s: seq<T>, index: int): (r: seq<T>)
    ensures |r| == if 0 <= index < |s| then |s| - 1 else |s|
  {
    if |s| == 0 then []
    else (if index == 0 then [] else [s[0]]) + Without(s[1..], index - 1)
  }

  /** `removeEducation`, `removeWork`, `removeProject`, `removeSkill`: an absent list stays absent. */
  function RemoveEntry(c: ResumeContent, sec: Section, index: int): (r: ResumeContent)
    ensures |Entries(r, sec)| == if 0 <= index < |Entries(c, sec)| then |Entries(c, sec)| - 1 else |Entries(c, sec)|
    ensures r.basicInfo == c.basicInfo
  {
    match ListOf(c, sec)
    case None => c
    case Some(l) => WithList(c, sec, Some(Without(l, index)))
  }

  /** `addSkill`, given what `prompt` returned: only a non-empty name is added. */
  function AddSkill(c: ResumeContent, answer: Option<string>): (r: ResumeContent)
    ensures answer.None? ==> r == c
    ensures r != c ==> |Entries(r, SkillList)| == |Entries(c, SkillList)| + 1
  {
    if answer.Some? && answer.value != "" then
      WithList(c, SkillList, Some(Entries(c, SkillList) + [map["name" := Str(answer.value)]]))
    else c
  }

  // ---------------------------------------------------------------------------
  // Properties of the edits

  /** Filtering out one index deletes exactly that entry and keeps the others in order. */
  lemma {:induction false} WithoutDeletes<T>(s: seq<T>, index: int)
    ensures 0 <= index < |s| ==> Without(s, index) == s[..index] + s[index + 1..]
    ensures !(0 <= index < |s|) ==> Without(s, index) == s
  {
    if |s| > 0 {
      var tail := s[1..];
      WithoutDeletes(tail, index - 1);
      if index == 0 {
        assert Without(s, index) == [] + Without(tail, index - 1);
        assert s[..0] + s[1..] == tail;
      } else {
        assert Without(s, index) == [s[0]] + Without(tail, index - 1);
        if 0 < index < |s| {
          assert s[..index] + s[index + 1..] == [s[0]] + (tail[..index - 1] + tail[index..]);
        } else {
          assert [s[0]] + tail == s;
        }
      }
    }
  }

  /** An add appends exactly one blank entry (an absent list counts as empty) and touches nothing else. */
  lemma AddAppendsBlank(c: ResumeContent, sec: Section, other: Section)
    requires HasForm(sec)
    ensures Entries(AddEntry(c, sec), sec) == Entries(c, sec) + [Blank(sec)]
    ensures |Entries(AddEntry(c, sec), sec)| == |Entries(c, sec)| + 1
    ensures other != sec ==> ListOf(AddEntry(c, sec), other) == ListOf(c, other)
    ensures AddEntry(c, sec).basicInfo == c.basicInfo
  {
  }

  /** An update changes only the named field of entry `i`: the new list is the old one with that one key of entry `i` set. */
  lemma UpdateChangesOneField(c: ResumeContent, sec: Section, i: nat, field: string, value: Value, j: nat, key: string)
    requires HasForm(sec) && i < |Entries(c, sec)|
    ensures |Entries(UpdateEntry(c, sec, i, field, value), sec)| == |Entries(c, sec)|
    ensures Entries(UpdateEntry(c, sec, i, field, value), sec)[i][field] == value
    ensures key != field && key in Entries(c, sec)[i] ==>
              Entries(UpdateEntry(c, sec, i, field, value), sec)[i][key] == Entries(c, sec)[i][key]
    ensures j < |Entries(c, sec)| && j != i ==> Entries(UpdateEntry(c, sec, i, field, value), sec)[j] == Entries(c, sec)[j]
    ensures Entries(UpdateEntry(c, sec, i, field, value), sec) == Entries(c, sec)[i := Entries(c, sec)[i][field := value]]
  {
  }

  /** A remove deletes exactly entry `index` and keeps the rest in order; the length drops by one when in range. */
  lemma RemoveDeletesOne(c: ResumeContent, sec: Section, index: int, other: Section)
    ensures ListOf(c, sec).None? ==> RemoveEntry(c, sec, index) == c
    ensures ListOf(c, sec).Some? && 0 <= index < |Entries(c, sec)| ==>
              Entries(RemoveEntry(c, sec, index), sec) == Entries(c, sec)[..index] + Entries(c, sec)[index + 1..]
              && |Entries(RemoveEntry(c, sec, index), sec)| == |Entries(c, sec)| - 1
    ensures !(0 <= index < |Entries(c, sec)|) ==> Entries(RemoveEntry(c, sec, index), sec) == Entries(c, sec)
    ensures other != sec ==> ListOf(RemoveEntry(c, sec, index), other) == ListOf(c, other)
  {
    if ListOf(c, sec).Some? {
      WithoutDeletes(ListOf(c, sec).value, index);
    }
  }

  /** Removing a just-added entry restores the list. */
  lemma RemoveUndoesAdd(c: ResumeContent, sec: Section)
    requires HasForm(sec)
    ensures Entries(RemoveEntry(AddEntry(c, sec), sec, |Entries(c, sec)|), sec) == Entries(c, sec)
  {
    var l := Entries(c, sec) + [Blank(sec)];
    WithoutDeletes(l, |Entries(c, sec)|);
    assert l[..|Entries(c, sec)|] == Entries(c, sec);
  }

  /** A skill is added only for a non-empty answer, as a `{ name }` entry at the end; nothing else changes. */
  lemma AddSkillOnlyWithName(c: ResumeContent, answer: Option<string>)
    ensures (answer.None? || answer.value == "") ==> AddSkill(c, answer) == c
    ensures answer.Some? && answer.value != "" ==>
              Entries(AddSkill(c, answer), SkillList) == Entries(c, SkillList) + [map["name" := Str(answer.value)]]
    ensures forall other | other != SkillList :: ListOf(AddSkill(c, answer), other) == ListOf(c, other)
    ensures AddSkill(c, answer).basicInfo == c.basicInfo
  {
  }

  // ---------------------------------------------------------------------------
  // Saving and generating

  /**
   * What the page makes of its `id` param: a new résumé when `isNew`, else the
   * number `Number(id)` gives, which is `NaN` for an undefined param.
   */
  datatype EditorId = NewResume | Existing(id: nat) | NaNId

  /** The page's two routes: the `:id` one gives its segment as `id`; the static `/resumes/new` gives none. */
  function RouteParam(p: Routes.Pattern): (param: Option<string>)
    requires p.NewResumeRoute? || p.ResumeById?
    ensures param.Some? <==> p.ResumeById?
    ensures param.Some? ==> param.value == p.id
  {
    if p.ResumeById? then Some(p.id) else None
  }

  /**
   * How the page reads its param: `id === 'new'`, else `Number(id)`, which is
   * `NaN` for an undefined param. Strings other than 'new' and decimal numbers
   * are not modelled.
   */
  function ParseEditorId(param: Option<string>): (r: Option<EditorId>)
    ensures r == Some(NewResume) <==> param == Some("new")
    ensures r == Some(NaNId) <==> param.None?
    ensures r.Some? && r.value.Existing? ==> param.Some? && ParseDecimal(param.value) == Some(r.value.id)
  {
    match param
    case None => Some(NaNId)
    case Some(s) =>
      if s == "new" then Some(NewResume)
      else if ParseDecimal(s).Some? then Some(Existing(ParseDecimal(s).value))
      else None
  }

  /** The page's id on each of its routes, as written: the route's param read by `ParseEditorId`. */
  function EditorIdAsWritten(p: Routes.Pattern): (r: Option<EditorId>)
    requires p.NewResumeRoute? || p.ResumeById?
    ensures p.NewResumeRoute? ==> r == Some(NaNId)
  {
    ParseEditorId(RouteParam(p))
  }

  /** The page's id as evidently intended: `/resumes/new` is a new résumé, and `/resumes/:id` reads its param. */
  function EditorIdOf(p: Routes.Pattern): (r: Option<EditorId>)
    requires p.NewResumeRoute? || p.ResumeById?
    ensures p.NewResumeRoute? ==> r == Some(NewResume)
    ensures p.ResumeById? ==> r == EditorIdAsWritten(p)
    ensures r != Some(NaNId)
  {
    if p.NewResumeRoute? then Some(NewResume) else ParseEditorId(Some(p.id))
  }

  /** As written, no location opens the editor on a new résumé. */
  lemma NoLocationOpensNew(path: string)
    requires Routes.Selected(path).NewResumeRoute? || Routes.Selected(path).ResumeById?
    ensures EditorIdAsWritten(Routes.Selected(path)) != Some(NewResume)
  {
  }

  /** The route the app links to for a new résumé is the static one. */
  lemma NewResumeLinkSelectsStaticRoute()
    ensures Routes.Selected(Path(["resumes", "new"])) == Routes.NewResumeRoute
  {
    Routes.SegmentsOfPath([Routes.NameText(Routes.ResumesName), Routes.NameText(Routes.NewName)]);
    Routes.NameRoundTrip(Routes.ResumesName);
    Routes.NameRoundTrip(Routes.NewName);
  }

  function EntriesValue(l: Option<seq<Entry>>): Value {
    match l
    case None => Undefined
    case Some(es) => Arr(seq(|es|, i requires 0 <= i < |es| => Obj(es[i])))
  }

  /** The content as the JSON value sent to the backend: absent fields are left out. */
  function ContentValue(c: ResumeContent): Value {
    var fields := map[
      "basic_info" := c.basicInfo,
      "education" := EntriesValue(c.education),
      "work_experience" := EntriesValue(c.workExperience),
      "projects" := EntriesValue(c.projects),
      "skills" := EntriesValue(c.skills),
      "certifications" := c.certifications,
      "custom_sections" := c.customSections];
    Obj(map k | k in fields && !fields[k].Undefined? :: fields[k])
  }

  function SavePayload(title: string, c: ResumeContent): Value {
    Obj(map["title" := Str(title), "content" := ContentValue(c)])
  }

  /** A request the page sends: a facade operation, or an operation's call with 'NaN' where its id goes. */
  datatype PageRequest = Api(op: Facade.Operation) | WithNaNId(call: Client.Call)

  /** `updateResume(NaN, data)`: the update's call, on the path `/resumes/NaN`. */
  function NaNUpdate(data: Value): (call: Client.Call)
    ensures forall n: nat :: Facade.Endpoint(Facade.UpdateResume(n, data)).(path := call.path) == call
  {
    Client.Call(Client.Put, ApiPaths.Route([ApiPaths.Fixed(ApiPaths.Resumes), ApiPaths.Text("NaN")]), Undefined,
                Client.JsonBody(data))
  }

  /** `aiGenerateResume(NaN, data)`: the generation's call, on the path `/resumes/NaN/ai/generate`. */
  function NaNGenerate(data: Value): (call: Client.Call)
    ensures forall n: nat :: Facade.Endpoint(Facade.AiGenerateResume(n, data)).(path := call.path) == call
  {
    Facade.PostJson(ApiPaths.Route([ApiPaths.Fixed(ApiPaths.Resumes), ApiPaths.Text("NaN"),
                                    ApiPaths.Fixed(ApiPaths.Ai), ApiPaths.Fixed(ApiPaths.Generate)]), data)
  }

  /** The save mutation: create when `isNew`, otherwise update under `Number(id)`. */
  function SaveCall(id: EditorId, title: string, c: ResumeContent): (r: PageRequest)
    ensures id.NewResume? <==> r.Api? && r.op.CreateResume?
    ensures id.Existing? ==> r.Api? && r.op.UpdateResume? && r.op.id == id.id
    ensures id.NaNId? ==> r.WithNaNId? && r.call.verb == Client.Put
  {
    match id
    case NewResume => Api(Facade.CreateResume(SavePayload(title, c)))
    case Existing(n) => Api(Facade.UpdateResume(n, SavePayload(title, c)))
    case NaNId => WithNaNId(NaNUpdate(SavePayload(title, c)))
  }

  /** After a new résumé is saved the page replaces its route with `/resumes/<id>`; the next save updates that résumé. */
  lemma SavedResumeIsUpdatedNext(newId: nat, title: string, c: ResumeContent)
    ensures ParseEditorId(Some(NatToString(newId))) == Some(Existing(newId))
    ensures SaveCall(ParseEditorId(Some(NatToString(newId))).value, title, c)
            == Api(Facade.UpdateResume(newId, SavePayload(title, c)))
  {
    ParseRendered(newId);
    assert NatToString(newId) != "new" by {
      assert IsDigit(NatToString(newId)[0]);
    }
  }

  const AiFallbackPosition: string := "软件工程师"

  /** What pressing the AI button does. */
  datatype GenerateDecision =
    | AskToSaveFirst
    | AskForJobIntention(activeTab: nat)
    | Generate(request: PageRequest)

  function JobIntention(c: ResumeContent): Value {
    Member(c.basicInfo, "job_intention")
  }

  /** The target position sent: `job_intention || '软件工程师'`. */
  function TargetPosition(c: ResumeContent): Value {
    if Truthy(JobIntention(c)) then JobIntention(c) else Str(AiFallbackPosition)
  }

  /** `handleAIGenerate` with its mutation: no call for a new résumé or an empty job intention. */
  function HandleAIGenerate(id: EditorId, c: ResumeContent): (d: GenerateDecision)
    ensures d.Generate? <==> !id.NewResume? && Truthy(JobIntention(c))
    ensures d == AskToSaveFirst <==> id.NewResume?
  {
    if id.NewResume? then AskToSaveFirst
    else if !Truthy(JobIntention(c)) then AskForJobIntention(0)
    else
      var body := Obj(map["target_position" := TargetPosition(c)]);
      if id.Existing? then Generate(Api(Facade.AiGenerateResume(id.id, body)))
      else Generate(WithNaNId(NaNGenerate(body)))
  }

  /**
   * A generation call is made only for a saved résumé with a job intention,
   * and it always sends that job intention: the '软件工程师' fallback is never used.
   */
  lemma GenerateGuards(id: EditorId, c: ResumeContent)
    ensures HandleAIGenerate(id, c).Generate? <==> !id.NewResume? && Truthy(JobIntention(c))
    ensures id.NewResume? ==> HandleAIGenerate(id, c) == AskToSaveFirst
    ensures !id.NewResume? && !Truthy(JobIntention(c)) ==> HandleAIGenerate(id, c) == AskForJobIntention(0)
    ensures HandleAIGenerate(id, c).Generate? && id.Existing? ==>
              HandleAIGenerate(id, c).request
              == Api(Facade.AiGenerateResume(id.id, Obj(map["target_position" := JobIntention(c)])))
    ensures HandleAIGenerate(id, c).Generate? && id.NaNId? ==>
              HandleAIGenerate(id, c).request == WithNaNId(NaNGenerate(Obj(map["target_position" := JobIntention(c)])))
  {
  }

  /** `setContent(x?.content ?? {})`, both when a résumé is loaded and after a generation. */
  function ContentOrEmpty(received: Option<ResumeContent>): (c: ResumeContent)
    ensures received.Some? ==> c == received.value
    ensures received.None? ==> Entries(c, EducationList) == [] && c.basicInfo == Undefined
  {
    received.GetOr(EmptyContent())
  }

  /** The AI button is disabled while generating and on an unsaved résumé. */
  predicate AiButtonDisabled(isGenerating: bool, id: EditorId)
    ensures !AiButtonDisabled(isGenerating, id) ==> forall c :: HandleAIGenerate(id, c) != AskToSaveFirst
  {
    isGenerating || id.NewResume?
  }

  /** Through the enabled button, the 'save first' branch of the handler is never reached. */
  lemma EnabledButtonNeverAsksToSave(isGenerating: bool, id: EditorId, c: ResumeContent)
    requires !AiButtonDisabled(isGenerating, id)
    ensures HandleAIGenerate(id, c) != AskToSaveFirst
  {
  }

  /** Content that arrives without basic info asks for a job intention instead of generating. */
  lemma MissingContentAsksForJobIntention(n: nat)
    ensures HandleAIGenerate(Existing(n), ContentOrEmpty(None)) == AskForJobIntention(0)
  {
  }

  /** The initial content has a falsy job intention, so generation first asks for one. */
  lemma FreshContentAsksForJobIntention(n: nat)
    ensures HandleAIGenerate(Existing(n), InitialContent()) == AskForJobIntention(0)
  {
  }

  /**
   * As written, the editor opened from `/resumes/new` is not new: its save
   * sends `PUT /resumes/NaN`, its AI button is enabled, and with a job
   * intention it sends `POST /resumes/NaN/ai/generate`.
   */
  lemma NewRouteIsNotNew(title: string, c: ResumeContent)
    ensures EditorIdAsWritten(Routes.NewResumeRoute) == Some(NaNId)
    ensures SaveCall(NaNId, title, c) == WithNaNId(NaNUpdate(SavePayload(title, c)))
    ensures !AiButtonDisabled(false, NaNId)
    ensures Truthy(JobIntention(c)) ==> HandleAIGenerate(NaNId, c).Generate?
                                        && HandleAIGenerate(NaNId, c).request.WithNaNId?
  {
  }

  /** As intended, the editor opened from `/resumes/new` creates the résumé and keeps the AI button disabled. */
  lemma NewRouteCreates(title: string, c: ResumeContent, isGenerating: bool)
    ensures EditorIdOf(Routes.NewResumeRoute) == Some(NewResume)
    ensures SaveCall(EditorIdOf(Routes.NewResumeRoute).value, title, c)
            == Api(Facade.CreateResume(SavePayload(title, c)))
    ensures AiButtonDisabled(isGenerating, EditorIdOf(Routes.NewResumeRoute).value)
    ensures HandleAIGenerate(EditorIdOf(Routes.NewResumeRoute).value, c) == AskToSaveFirst
  {
  }
}
