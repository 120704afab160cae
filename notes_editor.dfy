/**
 * The note editor: a five-field form that the inputs edit one field at a
 * time, a generator that fills in the content for a chosen subject and
 * topic, and a save button that insists on title, content and subject.
 */
module NotesEditor {
  import opened Wrappers

  /** The form's record; every field is a plain string, empty when unset. */
  datatype FormData = FormData(title: string, content: string, subject: string, topic: string, subtopic: string)

  const EmptyForm := FormData("", "", "", "", "")

  /** The names the inputs pass to the change handler. */
  datatype Field = Title | Content | Subject | Topic | Subtopic

  function Get(f: FormData, field: Field): string {
    match field
    case Title => f.title
    case Content => f.content
    case Subject => f.subject
    case Topic => f.topic
    case Subtopic => f.subtopic
  }

  /** `{ ...prev, [field]: value }`: the named field takes the value, the others keep theirs. */
  function WithField(f: FormData, field: Field, value: string): (r: FormData)
    ensures Get(r, field) == value
    ensures forall other :: other != field ==> Get(r, other) == Get(f, other)
  {
    match field
    case Title => f.(title := value)
    case Content => f.(content := value)
    case Subject => f.(subject := value)
    case Topic => f.(topic := value)
    case Subtopic => f.(subtopic := value)
  }

  /** A form is determined by its five fields. */
  lemma FieldsDetermineForm(f: FormData, g: FormData)
    requires forall field :: Get(f, field) == Get(g, field)
    ensures f == g
  {
    assert Get(f, Title) == Get(g, Title) && Get(f, Content) == Get(g, Content);
    assert Get(f, Subject) == Get(g, Subject) && Get(f, Topic) == Get(g, Topic);
    assert Get(f, Subtopic) == Get(g, Subtopic);
  }

  /** Writing a field's own value back changes nothing; a second write to a field overrides the first. */
  lemma WithFieldLaws(f: FormData, field: Field, v: string, w: string)
    ensures WithField(f, field, Get(f, field)) == f
    ensures WithField(WithField(f, field, v), field, w) == WithField(f, field, w)
  {
    FieldsDetermineForm(WithField(f, field, Get(f, field)), f);
    FieldsDetermineForm(WithField(WithField(f, field, v), field, w), WithField(f, field, w));
  }

  /** Writes to different fields can be made in either order. */
  lemma WithFieldCommutes(f: FormData, a: Field, v: string, b: Field, w: string)
    requires a != b
    ensures WithField(WithField(f, a, v), b, w) == WithField(WithField(f, b, w), a, v)
  {
    FieldsDetermineForm(WithField(WithField(f, a, v), b, w), WithField(WithField(f, b, w), a, v));
  }

  /** The note the editor may be opened with. */
  datatype EditorNote = EditorNote(
    id: Option<string>, title: string, content: string, subject: string, topic: string,
    subtopic: Option<string>, isAiGenerated: bool)

  /** The form an existing note fills in; a missing subtopic becomes the empty string. */
  function FromNote(n: EditorNote): (r: FormData)
    ensures r.title == n.title && r.content == n.content
    ensures r.subject == n.subject && r.topic == n.topic
    ensures n.subtopic.Some? ==> r.subtopic == n.subtopic.value
    ensures n.subtopic.None? ==> r.subtopic == ""
  {
    FormData(n.title, n.content, n.subject, n.topic, n.subtopic.GetOr(""))
  }

  /** Generation may start only when subject and topic are both filled in. */
  function CanGenerate(f: FormData): (r: bool)
    ensures r <==> f.subject != "" && f.topic != ""
  {
    f.subject != "" && f.topic != ""
  }

  /** The generate button is enabled when nothing is being generated and generation may start. */
  function GenerateEnabled(f: FormData, isGenerating: bool): (r: bool)
    ensures r ==> CanGenerate(f)
    ensures r <==> !isGenerating && f.subject != "" && f.topic != ""
  {
    !isGenerating && CanGenerate(f)
  }

  /**
   * Only subject and topic decide whether generation may start: writing either
   * decides it together with the other, and the remaining fields never matter.
   */
  lemma GenerationGuardFields(f: FormData, v: string)
    ensures CanGenerate(WithField(f, Subject, v)) <==> v != "" && f.topic != ""
    ensures CanGenerate(WithField(f, Topic, v)) <==> v != "" && f.subject != ""
    ensures CanGenerate(WithField(f, Title, v)) == CanGenerate(f)
    ensures CanGenerate(WithField(f, Content, v)) == CanGenerate(f)
    ensures CanGenerate(WithField(f, Subtopic, v)) == CanGenerate(f)
    ensures !CanGenerate(EmptyForm)
  {
    assert Get(WithField(f, Subject, v), Topic) == f.topic;
    assert Get(WithField(f, Topic, v), Subject) == f.subject;
    assert Get(WithField(f, Title, v), Subject) == f.subject && Get(WithField(f, Title, v), Topic) == f.topic;
    assert Get(WithField(f, Content, v), Subject) == f.subject && Get(WithField(f, Content, v), Topic) == f.topic;
    assert Get(WithField(f, Subtopic, v), Subject) == f.subject && Get(WithField(f, Subtopic, v), Topic) == f.topic;
  }

  /** A title the user typed is kept; otherwise the title is "<subject> - <topic>". */
  function TitleAfterGeneration(f: FormData): (r: string)
    ensures f.title != "" ==> r == f.title
    ensures f.title == "" ==> r == f.subject + " - " + f.topic
    ensures r != ""
  {
    if f.title != "" then f.title else f.subject + " - " + f.topic
  }

  /**
   * The form once the generator returns `generated`: empty output leaves the
   * form as it was; otherwise the content is replaced, the title defaulted and
   * subject, topic and subtopic kept.
   */
  function AfterGeneration(f: FormData, generated: string): (r: FormData)
    ensures generated == "" ==> r == f
    ensures generated != "" ==> r.content == generated && r.title == TitleAfterGeneration(f)
    ensures r.subject == f.subject && r.topic == f.topic && r.subtopic == f.subtopic
  {
    if generated == "" then f
    else f.(content := generated, title := TitleAfterGeneration(f))
  }

  /** Save accepts the form exactly when title, content and subject are filled in. */
  function RequiredFilled(f: FormData): (r: bool)
    ensures r <==> f.title != "" && f.content != "" && f.subject != ""
  {
    f.title != "" && f.content != "" && f.subject != ""
  }

  /**
   * Each of title, content and subject is needed by save: after writing one of
   * them, save accepts exactly when the written value and the other two are
   * non-empty. The blank form is rejected.
   */
  lemma SaveNeedsEachRequiredField(f: FormData, v: string)
    ensures RequiredFilled(WithField(f, Title, v)) <==> v != "" && f.content != "" && f.subject != ""
    ensures RequiredFilled(WithField(f, Content, v)) <==> v != "" && f.title != "" && f.subject != ""
    ensures RequiredFilled(WithField(f, Subject, v)) <==> v != "" && f.title != "" && f.content != ""
    ensures !RequiredFilled(EmptyForm)
  {
    assert Get(WithField(f, Title, v), Content) == f.content && Get(WithField(f, Title, v), Subject) == f.subject;
    assert Get(WithField(f, Content, v), Title) == f.title && Get(WithField(f, Content, v), Subject) == f.subject;
    assert Get(WithField(f, Subject, v), Title) == f.title && Get(WithField(f, Subject, v), Content) == f.content;
  }

  /** Topic and subtopic are never checked by save. */
  lemma SaveIgnoresTopics(f: FormData, v: string)
    ensures RequiredFilled(WithField(f, Topic, v)) == RequiredFilled(f)
    ensures RequiredFilled(WithField(f, Subtopic, v)) == RequiredFilled(f)
  {
    assert Get(WithField(f, Topic, v), Title) == f.title;
    assert Get(WithField(f, Topic, v), Content) == f.content;
    assert Get(WithField(f, Topic, v), Subject) == f.subject;
    assert Get(WithField(f, Subtopic, v), Title) == f.title;
    assert Get(WithField(f, Subtopic, v), Content) == f.content;
    assert Get(WithField(f, Subtopic, v), Subject) == f.subject;
  }

  /** A form that passed the generation guard and then received content can be saved. */
  lemma GenerationMakesSaveable(f: FormData, generated: string)
    requires CanGenerate(f) && generated != ""
    ensures RequiredFilled(AfterGeneration(f, generated))
  {
  }

  /**
   * The button that started a generation is enabled again once it settles:
   * the output never touches subject or topic.
   */
  lemma GenerationReenablesButton(f: FormData, generated: string)
    requires GenerateEnabled(f, false)
    ensures !GenerateEnabled(f, true)
    ensures GenerateEnabled(AfterGeneration(f, generated), false)
  {
  }

  /** Generating again with the same output changes nothing more. */
  lemma AfterGenerationIdempotent(f: FormData, generated: string)
    ensures AfterGeneration(AfterGeneration(f, generated), generated) == AfterGeneration(f, generated)
  {
  }

  /** What the generator is asked for. */
  datatype Request = Request(subject: string, topic: string, language: string)

  /** How the awaited generator call ended: with some text (possibly empty), or by throwing. */
  datatype GenerationResult = Returned(text: string) | Threw

  datatype SaveOutcome = Rejected | Saved

  /** The editor component's state; the language comes from the application context. */
  class Editor {
    var form: FormData
    var isGenerating: bool

    /** A blank form with nothing being generated. */
    constructor()
      ensures form == EmptyForm && !isGenerating
    {
      form := EmptyForm;
      isGenerating := false;
    }

    /** The effect on the `note` property: a note fills the form, no note leaves it alone. */
    method LoadNote(note: Option<EditorNote>)
      modifies this
      ensures note.Some? ==> form == FromNote(note.value)
      ensures note.None? ==> form == old(form)
      ensures isGenerating == old(isGenerating)
    {
      if note.Some? {
        form := FromNote(note.value);
      }
    }

    method HandleInputChange(field: Field, value: string)
      modifies this
      ensures form == WithField(old(form), field, value)
      ensures isGenerating == old(isGenerating)
    {
      form := WithField(form, field, value);
    }

    /**
     * The part of the generate handler before the generator is awaited:
     * without subject or topic nothing changes and no request is made;
     * otherwise the flag is raised and the form's subject and topic are sent.
     */
    method BeginGeneration(language: string) returns (request: Option<Request>)
      modifies this
      ensures form == old(form)
      ensures request.Some? <==> CanGenerate(old(form))
      ensures request.Some? ==> request.value == Request(form.subject, form.topic, language) && isGenerating
      ensures request.None? ==> isGenerating == old(isGenerating)
      ensures GenerateEnabled(old(form), old(isGenerating)) ==> request.Some?
      ensures request.Some? ==> !GenerateEnabled(form, isGenerating)
    {
      if form.subject == "" || form.topic == "" {
        return None;
      }
      isGenerating := true;
      request := Some(Request(form.subject, form.topic, language));
    }

    /**
     * The part after the generator settles: returned text updates the form as
     * it stands by then, a throw leaves it, and either way the flag is lowered.
     */
    method FinishGeneration(result: GenerationResult)
      modifies this
      ensures result.Returned? ==> form == AfterGeneration(old(form), result.text)
      ensures result.Threw? ==> form == old(form)
      ensures !isGenerating
      ensures GenerateEnabled(form, isGenerating) <==> CanGenerate(old(form))
    {
      if result.Returned? && result.text != "" {
        form := AfterGeneration(form, result.text);
      }
      isGenerating := false;
    }

    /** Save changes no state: it is rejected or it completes and the editor is left. */
    method HandleSave() returns (outcome: SaveOutcome)
      ensures outcome == Saved <==> RequiredFilled(form)
      ensures outcome == Rejected <==> form.title == "" || form.content == "" || form.subject == ""
    {
      if form.title == "" || form.content == "" || form.subject == "" {
        return Rejected;
      }
      return Saved;
    }
  }
}
