/**
 * The post-composer page: a form over title, content, category, language,
 * image and publish flag, an image size guard, validation before submission,
 * and the choice between a multipart body (with an image) and a JSON body.
 */
module PostNews {
  import opened Options
  import opened Strings
  import opened Json
  import opened Api
  import UseApi

  /** The form's starting values. */
  const InitialValues: seq<Entry> := [
    Entry("title", Str("")), Entry("content", Str("")), Entry("category", Str("")),
    Entry("language", Str("uz")), Entry("image", Null), Entry("published", Bool(true))]

  /** The largest image accepted: five mebibytes. */
  const MaxImageBytes: nat := 5 * 1024 * 1024

  /** The shortest content accepted, counted after trimming. */
  const MinContentLength: nat := 20

  /** What validation decides: submit, stop with a message, or stop on an exception (a non-string value has no `trim`). */
  datatype Verdict = Accept | Reject(message: string) | Throws

  /**
   * The validation of `handleSubmit`, in order: a blank title, then blank
   * content, then content shorter than twenty characters once trimmed.
   */
  function CheckPost(title: Value, content: Value): (v: Verdict)
    ensures v == Reject("Title is required") <==> title.Str? && Trim(title.s) == ""
    ensures v == Reject("Content is required") <==> title.Str? && Trim(title.s) != "" && content.Str? && Trim(content.s) == ""
  {
    if !title.Str? then Throws
    else if Trim(title.s) == "" then Reject("Title is required")
    else if !content.Str? then Throws
    else if Trim(content.s) == "" then Reject("Content is required")
    else if |Trim(content.s)| < MinContentLength then Reject("Content must be at least 20 characters")
    else Accept
  }

  /**
   * A post is accepted exactly when title and content are strings, the
   * title has a character other than white space, and the content keeps at
   * least twenty characters once trimmed.
   */
  lemma CheckPostAccepts(title: Value, content: Value)
    ensures CheckPost(title, content) == Accept <==>
              && title.Str? && content.Str?
              && (exists j :: 0 <= j < |title.s| && !IsSpace(title.s[j]))
              && |Trim(content.s)| >= MinContentLength
  {
    if title.Str? {
      TrimEmptyIff(title.s);
    }
  }

  /** The properties a multipart body carries: every one that is not `null`/`undefined`, in order. */
  function NonNullParts(es: seq<Entry>): (r: seq<Entry>)
    ensures forall e :: e in r <==> e in es && !Nullish(e.val)
    ensures |r| <= |es|
  {
    if es == [] then []
    else NonNullParts(es[..|es| - 1]) + (if Nullish(es[|es| - 1].val) then [] else [es[|es| - 1]])
  }

  /** The parts are taken piecewise, so they keep the order of the form's properties. */
  lemma {:induction false} NonNullPartsConcat(a: seq<Entry>, b: seq<Entry>)
    ensures NonNullParts(a + b) == NonNullParts(a) + NonNullParts(b)
    decreases |b|
  {
    if b == [] {
      assert a + b == a;
    } else {
      var init := b[..|b| - 1];
      var last := b[|b| - 1];
      assert (a + b)[..|a + b| - 1] == a + init;
      assert (a + b)[|a + b| - 1] == last;
      NonNullPartsConcat(a, init);
    }
  }

  /** The validation applied to the form's values. */
  function Validate(values: seq<Entry>): Verdict {
    CheckPost(Lookup(values, "title"), Lookup(values, "content"))
  }

  /** The JSON body without an image: exactly the five post properties, an empty category sent as `undefined`. */
  function JsonPost(values: seq<Entry>): (body: Value)
    ensures body.Obj? && Keys(body.entries) == ["title", "content", "category", "language", "published"]
    ensures Get(body, "title") == Lookup(values, "title") && Get(body, "content") == Lookup(values, "content")
    ensures Get(body, "language") == Lookup(values, "language") && Get(body, "published") == Lookup(values, "published")
    ensures Get(body, "category") == if Truthy(Lookup(values, "category")) then Lookup(values, "category") else Undefined
  {
    assert "content"[0] != "title"[0] && "category"[1] != "content"[1] && "category"[0] != "title"[0];
    assert "language"[0] != "title"[0] && "language"[0] != "content"[0] && "language"[0] != "category"[0];
    assert "published"[0] != "title"[0] && "published"[0] != "content"[0] && "published"[0] != "category"[0];
    assert "published"[0] != "language"[0];
    var es := [Entry("title", Lookup(values, "title")),
               Entry("content", Lookup(values, "content")),
               Entry("category", Or(Lookup(values, "category"), Undefined)),
               Entry("language", Lookup(values, "language")),
               Entry("published", Lookup(values, "published"))];
    assert DistinctKeys(es);
    LookupAt(es, 1);
    LookupAt(es, 2);
    LookupAt(es, 3);
    LookupAt(es, 4);
    Obj(es)
  }

  /** The payload of a valid post: multipart when an image is attached, else JSON. */
  function PostPayload(values: seq<Entry>): (body: Body)
    ensures body.FormData? <==> Truthy(Lookup(values, "image"))
    ensures body.FormData? ==> forall e :: e in body.parts <==> e in values && !Nullish(e.val)
    ensures !body.FormData? ==> body.JsonBody? && body.json.Obj? && Keys(body.json.entries) == ["title", "content", "category", "language", "published"]
  {
    if Truthy(Lookup(values, "image")) then FormData(NonNullParts(values)) else JsonBody(JsonPost(values))
  }

  /** The payload construction of `handleSubmit`. */
  method BuildPostPayload(values: seq<Entry>) returns (body: Body)
    ensures body == PostPayload(values)
    ensures body.FormData? <==> Truthy(Lookup(values, "image"))
  {
    if Truthy(Lookup(values, "image")) {
      var parts: seq<Entry> := [];
      for i := 0 to |values|
        invariant parts == NonNullParts(values[..i])
      {
        assert values[..i + 1][..i] == values[..i];
        var e := values[i];
        if !Nullish(e.val) {
          parts := parts + [e];
        }
      }
      assert values[..|values|] == values;
      body := FormData(parts);
    } else {
      body := JsonBody(JsonPost(values));
    }
  }

  /** The confirmation shown after a successful submission. */
  function SuccessMessage(title: string): string {
    "Post \"" + title + "\" was published successfully."
  }

  datatype ComposerState = ComposerState(values: seq<Entry>, touched: seq<Entry>, success: Value, apiError: Value)

  /** The composer page: its form, its create call and its two banners. */
  class Composer {
    const form: UseApi.Form
    const call: UseApi.ApiCall
    var success: Value
    var apiError: Value

    /** The form was created over the page's initial values. */
    ghost predicate Valid()
      reads this
    {
      form.initialValues == InitialValues
    }

    function State(): ComposerState
      reads this, form
    {
      ComposerState(form.values, form.touched, success, apiError)
    }

    constructor ()
      ensures fresh(form) && fresh(call) && Valid()
      ensures State() == ComposerState(InitialValues, [], Null, Null)
    {
      form := new UseApi.Form(InitialValues);
      call := new UseApi.ApiCall();
      success, apiError := Null, Null;
    }

    /**
     * `handleImageChange`: no file or a file over five mebibytes leaves the
     * values as they are; otherwise only `image` changes.
     */
    method HandleImageChange(files: seq<FileRef>)
      modifies form
      ensures files == [] || files[0].size > MaxImageBytes ==> State() == old(State())
      ensures files != [] && files[0].size <= MaxImageBytes ==>
                State() == old(State()).(values := Put(old(form.values), "image", File(files[0])))
      ensures forall k :: k != "image" ==> Lookup(form.values, k) == Lookup(old(form.values), k)
    {
      if files == [] {
        return;
      }
      var file := files[0];
      if file.size > MaxImageBytes {
        return;
      }
      UseApi.PutLookupAll(form.values, "image", File(file));
      form.SetValues(Put(form.values, "image", File(file)));
    }

    /** The image's remove button. */
    method RemoveImage()
      modifies form
      ensures State() == old(State()).(values := Put(old(form.values), "image", Null))
    {
      form.SetValues(Put(form.values, "image", Null));
    }

    /** The publish toggle: negates `published` and nothing else. */
    method TogglePublished()
      modifies form
      ensures State() == old(State()).(values := Put(old(form.values), "published", Bool(!Truthy(Lookup(old(form.values), "published")))))
      ensures forall k :: k != "published" ==> Lookup(form.values, k) == Lookup(old(form.values), k)
      ensures Truthy(Lookup(form.values, "published")) <==> !Truthy(Lookup(old(form.values), "published"))
    {
      var flipped := Bool(!Truthy(Lookup(form.values, "published")));
      UseApi.PutLookupAll(form.values, "published", flipped);
      form.SetValues(Put(form.values, "published", flipped));
    }

    /**
     * The sending half of `handleSubmit`, once validation has passed: posts
     * the payload; a success shows the confirmation and resets the form, a
     * failure keeps the values and shows the error.
     */
    method Publish(outcome: Outcome) returns (req: Request)
      requires Valid() && Lookup(form.values, "title").Str?
      modifies this, form, call
      ensures req == Request(POST, "/api/news", PostPayload(old(form.values))) && !call.loading
      ensures outcome.Ok? ==>
                State() == ComposerState(InitialValues, [], Str(SuccessMessage(Lookup(old(form.values), "title").s)), old(apiError))
      ensures outcome.Err? ==> State() == old(State()).(apiError := UseApi.CallErrorText(outcome.failure))
    {
      var title := Lookup(form.values, "title");
      var payload := BuildPostPayload(form.values);
      req := Request(POST, "/api/news", payload);
      var result := call.Execute(outcome);
      if result.Succeeded? {
        success := Str(SuccessMessage(title.s));
        form.Reset();
      } else {
        apiError := result.error;
      }
    }

    /**
     * `handleSubmit`: clears both banners, validates, and only a valid post
     * is sent. A success shows the confirmation and resets the form; a
     * failure keeps the values and shows the error.
     */
    method HandleSubmit(outcome: Outcome) returns (req: Option<Request>)
      requires Valid()
      modifies this, form, call
      ensures var verdict := Validate(old(form.values));
              verdict != Accept ==> req.None? && unchanged(call) && State() == old(State()).(success := Null, apiError := Null)
      ensures var verdict := Validate(old(form.values));
              verdict == Accept ==> req == Some(Request(POST, "/api/news", PostPayload(old(form.values)))) && !call.loading
      ensures var verdict := Validate(old(form.values));
              verdict == Accept && outcome.Ok? ==>
                State() == ComposerState(InitialValues, [], Str(SuccessMessage(Lookup(old(form.values), "title").s)), Null)
      ensures var verdict := Validate(old(form.values));
              verdict == Accept && outcome.Err? ==>
                State() == old(State()).(success := Null, apiError := UseApi.CallErrorText(outcome.failure))
    {
      success := Null;
      apiError := Null;
      var verdict := Validate(form.values);
      if verdict != Accept {
        return None;
      }
      var sent := Publish(outcome);
      req := Some(sent);
    }

    /** The form's reset button: initial values and no banners. */
    method ResetAll()
      requires Valid()
      modifies this, form
      ensures State() == ComposerState(InitialValues, [], Null, Null)
    {
      form.Reset();
      success := Null;
      apiError := Null;
    }
  }
}
