/** The research form: the form record and its single-field updates and toggles, the
    accordion, the auto-fill guard and merge, and the saved-profile map. */
module InputForm {
  import opened Types
  import opened Strings
  import GeminiService

  /** The text fields of the form, each named by its input's `name` attribute. */
  datatype TextField =
    | Niche | Subject | ContentType | Objective
    | Desires | Pains | Fears | Beliefs | Habits | Characteristics
    | Media | Techniques | FamousPeople | Institutions | Tools | Disruptions
    | Trigger | Structure | Tone

  /** `formData[name]` for a text field. */
  function Field(d: FormData, f: TextField): string {
    match f
    case Niche => d.niche
    case Subject => d.subject
    case ContentType => d.contentType
    case Objective => d.objective
    case Desires => d.desires
    case Pains => d.pains
    case Fears => d.fears
    case Beliefs => d.beliefs
    case Habits => d.habits
    case Characteristics => d.characteristics
    case Media => d.media
    case Techniques => d.techniques
    case FamousPeople => d.famousPeople
    case Institutions => d.institutions
    case Tools => d.tools
    case Disruptions => d.disruptions
    case Trigger => d.trigger
    case Structure => d.structure
    case Tone => d.tone
  }

  /** `{ ...prev, [name]: value }`: the named field takes the new value and nothing else changes. */
  function WithField(d: FormData, f: TextField, v: string): (r: FormData)
    ensures Field(r, f) == v
    ensures forall g :: g != f ==> Field(r, g) == Field(d, g)
    ensures r.autoSubject == d.autoSubject && r.useTrends == d.useTrends
  {
    match f
    case Niche => d.(niche := v)
    case Subject => d.(subject := v)
    case ContentType => d.(contentType := v)
    case Objective => d.(objective := v)
    case Desires => d.(desires := v)
    case Pains => d.(pains := v)
    case Fears => d.(fears := v)
    case Beliefs => d.(beliefs := v)
    case Habits => d.(habits := v)
    case Characteristics => d.(characteristics := v)
    case Media => d.(media := v)
    case Techniques => d.(techniques := v)
    case FamousPeople => d.(famousPeople := v)
    case Institutions => d.(institutions := v)
    case Tools => d.(tools := v)
    case Disruptions => d.(disruptions := v)
    case Trigger => d.(trigger := v)
    case Structure => d.(structure := v)
    case Tone => d.(tone := v)
  }

  /** Two records that agree on every text field and both flags are the same record. */
  lemma SameFields(d: FormData, e: FormData)
    requires forall g :: Field(d, g) == Field(e, g)
    requires d.autoSubject == e.autoSubject && d.useTrends == e.useTrends
    ensures d == e
  {
    assert Field(d, Niche) == Field(e, Niche) && Field(d, Subject) == Field(e, Subject);
    assert Field(d, ContentType) == Field(e, ContentType) && Field(d, Objective) == Field(e, Objective);
    assert Field(d, Desires) == Field(e, Desires) && Field(d, Pains) == Field(e, Pains);
    assert Field(d, Fears) == Field(e, Fears) && Field(d, Beliefs) == Field(e, Beliefs);
    assert Field(d, Habits) == Field(e, Habits) && Field(d, Characteristics) == Field(e, Characteristics);
    assert Field(d, Media) == Field(e, Media) && Field(d, Techniques) == Field(e, Techniques);
    assert Field(d, FamousPeople) == Field(e, FamousPeople) && Field(d, Institutions) == Field(e, Institutions);
    assert Field(d, Tools) == Field(e, Tools) && Field(d, Disruptions) == Field(e, Disruptions);
    assert Field(d, Trigger) == Field(e, Trigger) && Field(d, Structure) == Field(e, Structure);
    assert Field(d, Tone) == Field(e, Tone);
  }

  /** Writing back a field's own value changes nothing. */
  lemma WithFieldWriteBack(d: FormData, f: TextField)
    ensures WithField(d, f, Field(d, f)) == d
  {
    SameFields(WithField(d, f, Field(d, f)), d);
  }

  /** A second write to the same field overrides the first. */
  lemma WithFieldOverwrite(d: FormData, f: TextField, v: string, w: string)
    ensures WithField(WithField(d, f, v), f, w) == WithField(d, f, w)
  {
    SameFields(WithField(WithField(d, f, v), f, w), WithField(d, f, w));
  }

  /** `handleToggleTrends`: flips `useTrends` only. */
  function TrendsToggled(d: FormData): (r: FormData)
    ensures r.useTrends == !d.useTrends && r.autoSubject == d.autoSubject
    ensures forall g :: Field(r, g) == Field(d, g)
  {
    d.(useTrends := !d.useTrends)
  }

  /** `handleToggleAutoSubject`: flips `autoSubject` only. */
  function AutoSubjectToggled(d: FormData): (r: FormData)
    ensures r.autoSubject == !d.autoSubject && r.useTrends == d.useTrends
    ensures forall g :: Field(r, g) == Field(d, g)
  {
    d.(autoSubject := !d.autoSubject)
  }

  /** Toggling twice restores the record. */
  lemma ToggleTwice(d: FormData)
    ensures TrendsToggled(TrendsToggled(d)) == d
    ensures AutoSubjectToggled(AutoSubjectToggled(d)) == d
  {
    SameFields(TrendsToggled(TrendsToggled(d)), d);
    SameFields(AutoSubjectToggled(AutoSubjectToggled(d)), d);
  }

  /** The collapsible groups of research fields. */
  datatype Section = Recompensa | Crenca | Reconhecimento | Popularidade | Disrupcao

  /** `toggleSection`: the open group closes when selected again; any other selection opens
      that group in its place. */
  function Toggled(open: Option<Section>, s: Section): (r: Option<Section>)
    ensures r == None <==> open == Some(s)
    ensures r != None ==> r == Some(s)
  {
    if open == Some(s) then None else Some(s)
  }

  /** Selecting the same group twice in a row returns the accordion to where it was, unless
      another group had been open: that one stays closed. */
  lemma ToggledTwice(open: Option<Section>, s: Section)
    ensures Toggled(Toggled(open, s), s) == (if open == None || open == Some(s) then open else None)
  {
  }

  /** The initial form: empty texts, both switches off, and the first option of each list. */
  function InitialForm(): (d: FormData)
    ensures forall g :: g !in {ContentType, Objective, Trigger, Structure, Tone} ==> Field(d, g) == ""
    ensures !d.autoSubject && !d.useTrends
    ensures d.contentType == ContentTypes[0] && d.objective == Objectives[0]
    ensures d.trigger == Triggers[0] && d.structure == Structures[0] && d.tone == Tones[0]
  {
    FormData("", "", false, ContentTypes[0], Objectives[0],
      "", "", "", "", "", "", "", "", "", "", "", "",
      Triggers[0], Structures[0], Tones[0], false)
  }

  /** `canAutoFill`: a niche, and a subject unless the subject is left to the model. */
  predicate CanAutoFill(d: FormData) {
    d.niche != "" && (d.subject != "" || d.autoSubject)
  }

  const AutoSubjectPlaceholder: string := "(IA Definirá Assunto)"

  /** The subject sent with an auto-fill request. */
  function AutoFillSubject(d: FormData): (s: string)
    ensures d.autoSubject ==> s == AutoSubjectPlaceholder
    ensures !d.autoSubject ==> s == d.subject
  {
    if d.autoSubject then AutoSubjectPlaceholder else d.subject
  }

  /** Whenever auto-fill is enabled, the request carries a niche and a subject. */
  lemma AutoFillHasContext(d: FormData)
    ensures CanAutoFill(d) <==> d.niche != "" && AutoFillSubject(d) != ""
  {
  }

  /** The form starts with auto-fill disabled. */
  lemma InitialCannotAutoFill()
    ensures !CanAutoFill(InitialForm())
  {
  }

  const ExamplePrefix: string := "Exemplo: "

  /** `label.replace("Exemplo: ", "")`: only the first occurrence goes. */
  function CleanLabel(fieldLabel: string): (r: string)
    ensures !Contains(fieldLabel, ExamplePrefix) ==> r == fieldLabel
    ensures Contains(fieldLabel, ExamplePrefix) ==> |r| == |fieldLabel| - |ExamplePrefix|
    ensures |ExamplePrefix| <= |fieldLabel| && fieldLabel[..|ExamplePrefix|] == ExamplePrefix ==>
      r == fieldLabel[|ExamplePrefix|..]
  {
    ReplaceFirst(fieldLabel, ExamplePrefix, "")
  }

  /** `prev[name] ? prev[name] + "\n" + suggestions : suggestions`. */
  function Merge(current: string, suggestion: string): (r: string)
    ensures current == "" ==> r == suggestion
    ensures current != "" ==> |r| == |current| + 1 + |suggestion|
    ensures current != "" ==> r[..|current|] == current && r[|current|] == '\n' && r[|current| + 1..] == suggestion
  {
    if current == "" then suggestion else current + "\n" + suggestion
  }

  /** Read line by line, a merged field holds its earlier lines followed by the suggestion as
      one more line. */
  lemma MergeAddsLine(current: string, suggestion: string)
    requires current != "" && '\n' !in suggestion
    ensures Split(Merge(current, suggestion), '\n') == Split(current, '\n') + [suggestion]
  {
    SplitAppend(current, '\n', suggestion);
  }

  /** The form after an auto-fill reply: a failed request changes nothing, otherwise the
      suggestion is merged into the named field. */
  function AutoFilled(d: FormData, f: TextField, reply: Result<string, GeminiService.ServiceError>): (r: FormData)
    ensures reply.Err? ==> r == d
    ensures reply.Ok? ==> Field(r, f) == Merge(Field(d, f), reply.value)
    ensures forall g :: g != f ==> Field(r, g) == Field(d, g)
    ensures r.autoSubject == d.autoSubject && r.useTrends == d.useTrends
  {
    if reply.Err? then d else WithField(d, f, Merge(Field(d, f), reply.value))
  }

  /** Auto-fill never loses text already typed: the old value is a prefix of the new one. */
  lemma AutoFillKeepsText(d: FormData, f: TextField, reply: Result<string, GeminiService.ServiceError>)
    ensures |Field(d, f)| <= |Field(AutoFilled(d, f, reply), f)|
    ensures Field(AutoFilled(d, f, reply), f)[..|Field(d, f)|] == Field(d, f)
  {
  }

  /** `!profileName.trim()`. */
  predicate IsBlank(name: string) {
    Trim(name) == ""
  }

  lemma IsBlankIffAllSpace(name: string)
    ensures IsBlank(name) <==> AllSpace(name)
  {
  }

  /** The name offered when the save dialog opens: `${niche} - ${subject}` trimmed, offered
      only when the niche or the subject is filled in. */
  function SuggestedName(d: FormData): (r: Option<string>)
    ensures r.Some? <==> d.niche != "" || d.subject != ""
  {
    if d.niche != "" || d.subject != "" then Some(Trim(d.niche + " - " + d.subject)) else None
  }

  /** A suggested name always passes the blank-name guard of the save dialog: the dash
      survives trimming. */
  lemma SuggestedNameNotBlank(d: FormData)
    requires SuggestedName(d).Some?
    ensures !IsBlank(SuggestedName(d).value)
    ensures NoSpaceEdges(SuggestedName(d).value)
  {
    var s := d.niche + " - " + d.subject;
    assert s[|d.niche| + 1] == '-';
    assert !AllSpace(s);
  }

  /** `store[name] = formData`: the entry is created or overwritten, every other entry stays. */
  function StoreProfile(store: map<string, FormData>, name: string, d: FormData): (r: map<string, FormData>)
    ensures r.Keys == store.Keys + {name}
    ensures r[name] == d
    ensures forall k :: k in store && k != name ==> r[k] == store[k]
  {
    store[name := d]
  }

  /** `delete store[name]`: exactly that entry goes. */
  function RemoveProfile(store: map<string, FormData>, name: string): (r: map<string, FormData>)
    ensures r.Keys == store.Keys - {name}
    ensures forall k :: k in r ==> r[k] == store[k]
  {
    store - {name}
  }

  /** `savedProfiles[name]`, absent when the name is not stored. */
  function LookupProfile(store: map<string, FormData>, name: string): (r: Option<FormData>)
    ensures r.Some? <==> name in store
    ensures r.Some? ==> r.value == store[name]
  {
    if name in store then Some(store[name]) else None
  }

  /** A saved form is found under its name; saving again under the same name replaces it;
      deleting a freshly saved name is deleting it from the old store. */
  lemma ProfileLaws(store: map<string, FormData>, name: string, d: FormData, e: FormData)
    ensures LookupProfile(StoreProfile(store, name, d), name) == Some(d)
    ensures StoreProfile(StoreProfile(store, name, d), name, e) == StoreProfile(store, name, e)
    ensures RemoveProfile(StoreProfile(store, name, d), name) == RemoveProfile(store, name)
    ensures LookupProfile(RemoveProfile(store, name), name) == None
  {
  }

  /** Saving or deleting one name does not affect what another name finds. */
  lemma ProfileIndependence(store: map<string, FormData>, name: string, other: string, d: FormData)
    requires other != name
    ensures LookupProfile(StoreProfile(store, name, d), other) == LookupProfile(store, other)
    ensures LookupProfile(RemoveProfile(store, name), other) == LookupProfile(store, other)
  {
  }

  /** The transient notice after saving or loading a profile. */
  datatype SaveStatus = Quiet | Saved | Loaded

  /** The form component's state. `storage` stands for the profile map kept in local storage
      under `angel_frame_profiles`; `savedProfiles` is the copy shown in the load dialog. */
  class FormController {
    var formData: FormData
    var openSection: Option<Section>
    var saveStatus: SaveStatus
    var showSaveModal: bool
    var showLoadModal: bool
    var profileName: string
    var savedProfiles: map<string, FormData>
    var storage: map<string, FormData>
    var loadingField: Option<TextField>

    /** The component as first rendered, over whatever local storage already holds. */
    constructor(stored: map<string, FormData>)
      ensures formData == InitialForm() && openSection == Some(Recompensa)
      ensures saveStatus == Quiet && !showSaveModal && !showLoadModal
      ensures profileName == "" && savedProfiles == map[] && storage == stored
      ensures loadingField == None
    {
      formData := InitialForm();
      openSection := Some(Recompensa);
      saveStatus := Quiet;
      showSaveModal := false;
      showLoadModal := false;
      profileName := "";
      savedProfiles := map[];
      storage := stored;
      loadingField := None;
    }

    method ToggleSection(s: Section)
      modifies this`openSection
      ensures openSection == Toggled(old(openSection), s)
    {
      openSection := if openSection == Some(s) then None else Some(s);
    }

    method HandleChange(f: TextField, v: string)
      modifies this`formData
      ensures formData == WithField(old(formData), f, v)
    {
      formData := WithField(formData, f, v);
    }

    method HandleToggleTrends()
      modifies this`formData
      ensures formData == TrendsToggled(old(formData))
    {
      formData := formData.(useTrends := !formData.useTrends);
    }

    method HandleToggleAutoSubject()
      modifies this`formData
      ensures formData == AutoSubjectToggled(old(formData))
    {
      formData := formData.(autoSubject := !formData.autoSubject);
    }

    /** `handleSubmit`: the form is handed on unless a generation is already running. */
    method HandleSubmit(status: StepStatus) returns (submitted: Option<FormData>)
      ensures status == Loading <==> submitted.None?
      ensures submitted.Some? ==> submitted.value == formData
    {
      if status == Loading {
        return None;
      }
      submitted := Some(formData);
    }

    /** `handleAutoFill`: asks the research service (`research(niche, subject, label)`)
        for the field and merges the answer in; the field's spinner is cleared whatever the
        outcome. */
    method HandleAutoFill(
      f: TextField,
      fieldLabel: string,
      research: (string, string, string) -> Result<string, GeminiService.ServiceError>)
      modifies this`formData, this`loadingField
      ensures loadingField == None
      ensures formData == AutoFilled(old(formData), f,
        research(old(formData).niche, AutoFillSubject(old(formData)), CleanLabel(fieldLabel)))
    {
      var cleanLabel := ReplaceFirst(fieldLabel, ExamplePrefix, "");
      var niche := formData.niche;
      var subject := if formData.autoSubject then AutoSubjectPlaceholder else formData.subject;
      loadingField := Some(f);
      var suggestions := research(niche, subject, cleanLabel);
      if suggestions.Ok? {
        var current := Field(formData, f);
        var merged := if current != "" then current + "\n" + suggestions.value else suggestions.value;
        assert merged == Merge(current, suggestions.value);
        formData := WithField(formData, f, merged);
      }
      loadingField := None;
    }

    /** `handleOpenSave`: opens the dialog, proposing a name when there is one to propose. */
    method HandleOpenSave()
      modifies this`showSaveModal, this`profileName
      ensures showSaveModal
      ensures SuggestedName(formData).Some? ==> profileName == SuggestedName(formData).value
      ensures SuggestedName(formData).None? ==> profileName == old(profileName)
    {
      showSaveModal := true;
      if formData.niche != "" || formData.subject != "" {
        profileName := Trim(formData.niche + " - " + formData.subject);
      }
    }

    /** Typing in the name box of the save dialog. */
    method EditProfileName(v: string)
      modifies this`profileName
      ensures profileName == v
    {
      profileName := v;
    }

    /** `handleConfirmSave`: a blank name changes nothing; otherwise the form is stored under
        the name as typed (not trimmed), the dialog closes and the name box is emptied. */
    method HandleConfirmSave()
      modifies this`storage, this`saveStatus, this`showSaveModal, this`profileName
      ensures IsBlank(old(profileName)) ==>
        storage == old(storage) && saveStatus == old(saveStatus)
        && showSaveModal == old(showSaveModal) && profileName == old(profileName)
      ensures !IsBlank(old(profileName)) ==>
        storage == StoreProfile(old(storage), old(profileName), formData)
        && saveStatus == Saved && !showSaveModal && profileName == ""
    {
      if Trim(profileName) == "" {
        return;
      }
      var currentStore := storage;
      currentStore := currentStore[profileName := formData];
      storage := currentStore;
      saveStatus := Saved;
      showSaveModal := false;
      profileName := "";
    }

    /** The timer that clears the notice after saving or loading. */
    method ClearSaveStatus()
      modifies this`saveStatus
      ensures saveStatus == Quiet
    {
      saveStatus := Quiet;
    }

    /** `handleOpenLoad`: the dialog shows what local storage holds now. */
    method HandleOpenLoad()
      modifies this`savedProfiles, this`showLoadModal
      ensures savedProfiles == storage && showLoadModal
    {
      savedProfiles := storage;
      showLoadModal := true;
    }

    /** `handleSelectProfile`: the form is replaced only by a profile that is listed. */
    method HandleSelectProfile(name: string)
      modifies this`formData, this`saveStatus, this`showLoadModal
      ensures LookupProfile(savedProfiles, name).None? ==>
        formData == old(formData) && saveStatus == old(saveStatus) && showLoadModal == old(showLoadModal)
      ensures LookupProfile(savedProfiles, name).Some? ==>
        formData == LookupProfile(savedProfiles, name).value && saveStatus == Loaded && !showLoadModal
    {
      if name in savedProfiles {
        formData := savedProfiles[name];
        saveStatus := Loaded;
        showLoadModal := false;
      }
    }

    /** `handleDeleteProfile`: the listed profiles lose the name, and that list is written back
        to local storage. */
    method HandleDeleteProfile(name: string)
      modifies this`savedProfiles, this`storage
      ensures savedProfiles == RemoveProfile(old(savedProfiles), name)
      ensures storage == savedProfiles
    {
      var newStore := savedProfiles;
      newStore := newStore - {name};
      savedProfiles := newStore;
      storage := newStore;
    }
  }

  /** Saving under a non-blank name, editing a field, opening the load dialog and picking
      that name brings back the form as it was saved, not as edited, and the notice says so. */
  method SaveLoadRoundTrip(c: FormController, f: TextField, v: string)
    requires !IsBlank(c.profileName)
    modifies c
    ensures c.formData == old(c.formData)
    ensures c.storage == StoreProfile(old(c.storage), old(c.profileName), old(c.formData))
    ensures c.saveStatus == Loaded && !c.showLoadModal && !c.showSaveModal
  {
    var name := c.profileName;
    c.HandleConfirmSave();
    c.HandleChange(f, v);
    c.HandleOpenLoad();
    c.HandleSelectProfile(name);
  }
}
