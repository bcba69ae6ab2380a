/** The add/edit form for a feed: its field record, the change handler that clears a
    field's error, the validation rules and their messages, and the submit guard. */
module FeedForm {
  import opened Optional
  import opened Text
  import opened FeedsPage

  /** A form field holds either text or a checkbox state. */
  datatype Value = Str(text: string) | Flag(on: bool)

  type FormData = map<string, Value>

  const NameRequired: string := "피드 이름을 입력해주세요."
  const UrlRequired: string := "RSS URL을 입력해주세요."
  const UrlInvalid: string := "유효한 URL 형식이 아닙니다."
  const SourceRequired: string := "출처를 입력해주세요."

  /** The state of a new form. */
  function InitialForm(): (r: FormData)
    ensures r.Keys == {"name", "url", "source", "category", "description", "enabled", "crawl_frequency"}
    ensures forall k :: k in r && k != "enabled" && k != "crawl_frequency" ==> r[k] == Str("")
    ensures r["enabled"] == Flag(true) && r["crawl_frequency"] == Str("daily")
  {
    map["name" := Str(""), "url" := Str(""), "source" := Str(""), "category" := Str(""),
        "description" := Str(""), "enabled" := Flag(true), "crawl_frequency" := Str("daily")]
  }

  /** The form filled from a feed being edited; missing category and description become "". */
  function FromFeed(feed: RssFeed): (r: FormData)
    ensures r.Keys == InitialForm().Keys
    ensures r["name"] == Str(feed.name) && r["url"] == Str(feed.url) && r["source"] == Str(feed.source)
    ensures r["category"] == Str(OrElse(feed.category, ""))
    ensures r["description"] == Str(OrElse(feed.description, ""))
    ensures r["enabled"] == Flag(feed.enabled) && r["crawl_frequency"] == Str(feed.crawlFrequency)
  {
    map["name" := Str(feed.name), "url" := Str(feed.url), "source" := Str(feed.source),
        "category" := Str(OrElse(feed.category, "")),
        "description" := Str(OrElse(feed.description, "")),
        "enabled" := Flag(feed.enabled), "crawl_frequency" := Str(feed.crawlFrequency)]
  }

  /** `formData[key]?.trim()` is truthy: the key holds text that is not all whitespace. */
  predicate Filled(form: FormData, key: string) {
    key in form && form[key].Str? && !Blank(form[key].text)
  }

  /** The text under `key`, or "" when there is none. */
  function TextOf(form: FormData, key: string): (r: string)
    ensures key in form && form[key].Str? ==> r == form[key].text
  {
    if key in form && form[key].Str? then form[key].text else ""
  }

  /** The errors `validateForm` records. `validUrl` stands for "the URL constructor accepts it". */
  function FormErrors(form: FormData, validUrl: string -> bool): (r: map<string, string>)
    ensures r.Keys <= {"name", "url", "source"}
    ensures "name" in r <==> !Filled(form, "name")
    ensures "source" in r <==> !Filled(form, "source")
    ensures "url" in r <==> !Filled(form, "url") || !validUrl(TextOf(form, "url"))
    ensures "name" in r ==> r["name"] == NameRequired
    ensures "source" in r ==> r["source"] == SourceRequired
    ensures "url" in r ==> r["url"] == (if Filled(form, "url") then UrlInvalid else UrlRequired)
  {
    var e0: map<string, string> := map[];
    var e1 := if !Filled(form, "name") then e0["name" := NameRequired] else e0;
    var e2 :=
      if !Filled(form, "url") then e1["url" := UrlRequired]
      else if !validUrl(form["url"].text) then e1["url" := UrlInvalid]
      else e1;
    if !Filled(form, "source") then e2["source" := SourceRequired] else e2
  }

  /** The form is valid exactly when name, url and source are non-blank and the url parses. */
  lemma ValidIff(form: FormData, validUrl: string -> bool)
    ensures |FormErrors(form, validUrl)| == 0 <==>
      Filled(form, "name") && Filled(form, "source") && Filled(form, "url") && validUrl(TextOf(form, "url"))
  {
    var e := FormErrors(form, validUrl);
    if |e| == 0 {
      assert e.Keys == {};
    } else {
      var k :| k in e;
    }
  }

  /** A new, untouched form fails with exactly the three "required" messages. */
  lemma InitialFormErrors(validUrl: string -> bool)
    ensures FormErrors(InitialForm(), validUrl) ==
      map["name" := NameRequired, "url" := UrlRequired, "source" := SourceRequired]
  {
    var f := InitialForm();
    assert !Filled(f, "name") && !Filled(f, "url") && !Filled(f, "source");
  }

  /** A change event: a checkbox reports its state, any other control its text. */
  datatype ChangeEvent = Checkbox(checkboxName: string, checked: bool) | Input(inputName: string, value: string)
  {
    function FieldName(): string {
      if Checkbox? then checkboxName else inputName
    }
    function NewValue(): Value {
      if Checkbox? then Flag(checked) else Str(value)
    }
  }

  /** `handleChange` on the error record: a truthy message under the field is removed. */
  function ClearError(errors: map<string, string>, name: string): (r: map<string, string>)
    ensures name !in r || r[name] == ""
    ensures forall k :: k in errors && k != name ==> k in r && r[k] == errors[k]
    ensures r.Keys <= errors.Keys
  {
    if name in errors && errors[name] != "" then errors - {name} else errors
  }

  class FeedFormState {
    var formData: FormData
    var errors: map<string, string>

    constructor ()
      ensures formData == InitialForm() && errors == map[]
    {
      formData := InitialForm();
      errors := map[];
    }

    /** The edit effect: load the feed's fields when editing an existing feed. */
    method Populate(isEditing: bool, feed: Option<RssFeed>)
      modifies this`formData
      ensures isEditing && feed.Some? ==> formData == FromFeed(feed.value)
      ensures !(isEditing && feed.Some?) ==> formData == old(formData)
    {
      if isEditing && feed.Some? {
        formData := FromFeed(feed.value);
      }
    }

    /** `handleChange(e)`. */
    method Change(e: ChangeEvent)
      modifies this
      ensures formData == old(formData)[e.FieldName() := e.NewValue()]
      ensures errors == ClearError(old(errors), e.FieldName())
    {
      var name := e.FieldName();
      match e {
        case Checkbox(_, checked) => formData := formData[name := Flag(checked)];
        case Input(_, value) => formData := formData[name := Str(value)];
      }
      if name in errors && errors[name] != "" {
        errors := errors - {name};
      }
    }

    /** `validateForm()`: replaces the error record and reports whether it is empty. */
    method Validate(validUrl: string -> bool) returns (ok: bool)
      modifies this`errors
      ensures errors == FormErrors(formData, validUrl)
      ensures ok <==> |errors| == 0
    {
      var newErrors: map<string, string> := map[];
      if !Filled(formData, "name") {
        newErrors := newErrors["name" := NameRequired];
      }
      if !Filled(formData, "url") {
        newErrors := newErrors["url" := UrlRequired];
      } else if !validUrl(formData["url"].text) {
        newErrors := newErrors["url" := UrlInvalid];
      }
      if !Filled(formData, "source") {
        newErrors := newErrors["source" := SourceRequired];
      }
      errors := newErrors;
      ok := |newErrors| == 0;
    }

    /** `handleSubmit`: the record passed to `onSubmit`, or `None` when validation fails. */
    method Submit(validUrl: string -> bool) returns (submitted: Option<FormData>)
      modifies this`errors
      ensures errors == FormErrors(formData, validUrl)
      ensures submitted.Some? <==> |errors| == 0
      ensures submitted.Some? ==> submitted.value == formData
    {
      var ok := Validate(validUrl);
      if ok {
        submitted := Some(formData);
      } else {
        submitted := None;
      }
    }
  }
}
