/** The feedback submission form (src/components/organisms/SubmitModal.jsx):
    its validation rules, the record it hands to the feedback store, and
    the way typing clears a field's error. The HTML-to-text conversion of
    the rich-text description is a parameter. */
module SubmitModal {
  import opened Common
  import opened Text
  import FeedbackService

  datatype Form = Form(
    title: string,
    description: string,  // rich text (HTML)
    category: string,
    isAnonymous: bool,
    authorName: string,
    images: seq<string>)

  /** The form's initial, and reset, contents. */
  const EmptyForm := Form("", "", "", false, "", [])

  /** The keys of the `errors` object. */
  datatype Field = Title | Description | Category | IsAnonymous | AuthorName | Images

  const TitleRequired := "Title is required"
  const DescriptionRequired := "Description is required"
  const CategoryRequired := "Category is required"
  const NameRequired := "Name is required for non-anonymous submissions"

  /** The rule of `validateForm` for one field fails. Only the title, the
      description, the category and the author name have rules. */
  predicate Fails(form: Form, stripHtml: string -> string, f: Field)
  {
    match f
    case Title => IsBlank(form.title)
    case Description => IsBlank(stripHtml(form.description))
    case Category => form.category == ""
    case AuthorName => !form.isAnonymous && IsBlank(form.authorName)
    case _ => false
  }

  /** The message recorded for a field whose rule fails. */
  function Required(f: Field): string
  {
    match f
    case Title => TitleRequired
    case Description => DescriptionRequired
    case Category => CategoryRequired
    case _ => NameRequired
  }

  /** The `newErrors` object `validateForm` builds, one check after the
      other. */
  function FormErrors(form: Form, stripHtml: string -> string): map<Field, string>
  {
    var afterTitle := if IsBlank(form.title) then map[Title := TitleRequired] else map[];
    var afterDescription :=
      if IsBlank(stripHtml(form.description)) then afterTitle[Description := DescriptionRequired] else afterTitle;
    var afterCategory :=
      if form.category == "" then afterDescription[Category := CategoryRequired] else afterDescription;
    if !form.isAnonymous && IsBlank(form.authorName) then afterCategory[AuthorName := NameRequired] else afterCategory
  }

  /** The recorded keys are exactly the fields whose rule fails, each with
      its non-empty message. */
  lemma ErrorKeys(form: Form, stripHtml: string -> string)
    ensures forall f :: f in FormErrors(form, stripHtml) <==> Fails(form, stripHtml, f)
    ensures forall f :: f in FormErrors(form, stripHtml) ==> FormErrors(form, stripHtml)[f] == Required(f) != ""
  {
    var e := FormErrors(form, stripHtml);
    forall f ensures (f in e <==> Fails(form, stripHtml, f)) && (f in e ==> e[f] == Required(f) != "") {
      match f
      case Title =>
      case Description =>
      case Category =>
      case AuthorName =>
      case IsAnonymous =>
      case Images =>
    }
  }

  /** Each rule on its own: a field has an error exactly when its text is
      blank after trimming (see `Text.TrimEmptyIffBlank`), or for the
      category when it is empty; the name is required only of a
      non-anonymous author. */
  lemma FormErrorsSpec(form: Form, stripHtml: string -> string)
    ensures Title in FormErrors(form, stripHtml) <==> IsBlank(form.title)
    ensures Description in FormErrors(form, stripHtml) <==> IsBlank(stripHtml(form.description))
    ensures Category in FormErrors(form, stripHtml) <==> form.category == []
    ensures AuthorName in FormErrors(form, stripHtml) <==> !form.isAnonymous && IsBlank(form.authorName)
    ensures IsAnonymous !in FormErrors(form, stripHtml) && Images !in FormErrors(form, stripHtml)
    ensures forall f :: f in FormErrors(form, stripHtml) ==> FormErrors(form, stripHtml)[f] != ""
  {
    ErrorKeys(form, stripHtml);
  }

  /** `Object.keys(newErrors).length === 0`. */
  predicate Valid(form: Form, stripHtml: string -> string)
  {
    |FormErrors(form, stripHtml)| == 0
  }

  /** The form is valid exactly when every rule passes. */
  lemma ValidIff(form: Form, stripHtml: string -> string)
    ensures Valid(form, stripHtml) <==>
      && !IsBlank(form.title)
      && !IsBlank(stripHtml(form.description))
      && form.category != []
      && (form.isAnonymous || !IsBlank(form.authorName))
  {
    FormErrorsSpec(form, stripHtml);
    var e := FormErrors(form, stripHtml);
    if |e| != 0 {
      var k :| k in e;
    }
  }

  /** The author name sent to the store. */
  function SubmittedAuthor(form: Form): string
  {
    if form.isAnonymous then "Anonymous" else Trim(form.authorName)
  }

  /** `{...formData, authorName: ...}` as a draft for `create`. */
  function SubmittedDraft(form: Form): (d: FeedbackService.PostDraft)
    ensures d.title == form.title && d.description == form.description && d.category == form.category
    ensures d.isAnonymous == form.isAnonymous && d.images == Some(form.images)
    ensures d.authorName == SubmittedAuthor(form)
    ensures d.status.None? && d.voteCount.None? && d.commentCount.None?
  {
    FeedbackService.PostDraft(form.title, form.description, form.category, SubmittedAuthor(form),
                              form.isAnonymous, Some(form.images), None, None, None)
  }

  /** A valid form always sends a name: "Anonymous", or the author's name
      without surrounding white space, which is then not blank. */
  lemma SubmittedAuthorSpec(form: Form, stripHtml: string -> string)
    requires Valid(form, stripHtml)
    ensures form.isAnonymous ==> SubmittedAuthor(form) == "Anonymous"
    ensures !form.isAnonymous ==> var n := SubmittedAuthor(form);
      && n != [] && !IsSpace(n[0]) && !IsSpace(n[|n| - 1])
      && exists lo :: OccursAt(form.authorName, n, lo) && IsBlank(form.authorName[..lo]) && IsBlank(form.authorName[lo + |n|..])
  {
    if !form.isAnonymous {
      PassesWhenValid(form, stripHtml, AuthorName);
      TrimNonBlank(form.authorName);
    }
  }

  /** A valid form passes every rule. */
  lemma PassesWhenValid(form: Form, stripHtml: string -> string, f: Field)
    requires Valid(form, stripHtml)
    ensures !Fails(form, stripHtml, f)
  {
    var e := FormErrors(form, stripHtml);
    assert |e.Keys| == 0;
    ErrorKeys(form, stripHtml);
    assert f !in e.Keys;
  }

  /** One call of `handleInputChange(field, value)`. */
  datatype Edit =
    | SetTitle(title: string)
    | SetDescription(description: string)
    | SetCategory(category: string)
    | SetAnonymous(isAnonymous: bool)
    | SetAuthorName(authorName: string)
    | SetImages(images: seq<string>)

  function FieldOf(edit: Edit): Field
  {
    match edit
    case SetTitle(_) => Title
    case SetDescription(_) => Description
    case SetCategory(_) => Category
    case SetAnonymous(_) => IsAnonymous
    case SetAuthorName(_) => AuthorName
    case SetImages(_) => Images
  }

  /** `{...prev, [field]: value}`. */
  function ApplyEdit(form: Form, edit: Edit): (r: Form)
    ensures FieldOf(edit) != Title ==> r.title == form.title
    ensures FieldOf(edit) != Description ==> r.description == form.description
    ensures FieldOf(edit) != Category ==> r.category == form.category
    ensures FieldOf(edit) != IsAnonymous ==> r.isAnonymous == form.isAnonymous
    ensures FieldOf(edit) != AuthorName ==> r.authorName == form.authorName
    ensures FieldOf(edit) != Images ==> r.images == form.images
  {
    match edit
    case SetTitle(v) => form.(title := v)
    case SetDescription(v) => form.(description := v)
    case SetCategory(v) => form.(category := v)
    case SetAnonymous(v) => form.(isAnonymous := v)
    case SetAuthorName(v) => form.(authorName := v)
    case SetImages(v) => form.(images := v)
  }

  /** `if (errors[field]) setErrors(prev => ({...prev, [field]: ""}))`. */
  function ClearError(errors: map<Field, string>, field: Field): map<Field, string>
  {
    if field in errors && errors[field] != "" then errors[field := ""] else errors
  }

  /** Typing in a field blanks that field's error, if it had one, and leaves
      every other error as it was; the key itself stays. */
  lemma ClearErrorSpec(errors: map<Field, string>, field: Field)
    ensures var r := ClearError(errors, field);
      && r.Keys == errors.Keys
      && (field in r ==> r[field] == "")
      && (forall f :: f in errors && f != field ==> r[f] == errors[f])
  {
  }

  /** The modal's state. */
  class Modal {
    var form: Form
    var errors: map<Field, string>

    constructor ()
      ensures form == EmptyForm && errors == map[]
    {
      form := EmptyForm;
      errors := map[];
    }

    /** `validateForm()`: records the errors and reports whether there
        were none. */
    method ValidateForm(stripHtml: string -> string) returns (valid: bool)
      modifies this
      ensures errors == FormErrors(form, stripHtml) && form == old(form)
      ensures valid <==> Valid(form, stripHtml)
    {
      var newErrors: map<Field, string> := map[];
      if IsBlank(form.title) {
        newErrors := newErrors[Title := TitleRequired];
      }
      if IsBlank(stripHtml(form.description)) {
        newErrors := newErrors[Description := DescriptionRequired];
      }
      if form.category == "" {
        newErrors := newErrors[Category := CategoryRequired];
      }
      if !form.isAnonymous && IsBlank(form.authorName) {
        newErrors := newErrors[AuthorName := NameRequired];
      }
      errors := newErrors;
      valid := |newErrors| == 0;
    }

    /** `handleSubmit()` against the feedback store: an invalid form only
        shows its errors; a valid one is created and the form is reset. */
    method HandleSubmit(store: FeedbackService.FeedbackStore, stripHtml: string -> string, now: int)
      modifies this, store
      ensures !Valid(old(form), stripHtml) ==>
        form == old(form) && errors == FormErrors(old(form), stripHtml) && store.posts == old(store.posts)
      ensures Valid(old(form), stripHtml) ==>
        && store.posts == old(store.posts)
             + [FeedbackService.NewPost(SubmittedDraft(old(form)), NextId(FeedbackService.Ids(old(store.posts))), now)]
        && form == EmptyForm && errors == map[]
    {
      var valid := ValidateForm(stripHtml);
      if !valid {
        return;
      }
      var created := store.Create(SubmittedDraft(form), now);
      form := EmptyForm;
      errors := map[];
    }

    /** `handleInputChange(field, value)`. */
    method InputChange(edit: Edit)
      modifies this
      ensures form == ApplyEdit(old(form), edit)
      ensures errors == ClearError(old(errors), FieldOf(edit))
    {
      form := ApplyEdit(form, edit);
      if FieldOf(edit) in errors && errors[FieldOf(edit)] != "" {
        errors := errors[FieldOf(edit) := ""];
      }
    }
  }
}
