/**
 * The news-post management page: the post list with its loose response
 * unwrapping, deletion through a confirmation dialog, and in-place editing
 * whose saved values are merged into the cached list without reloading it.
 */
module ManagePosts {
  import opened Options
  import opened Strings
  import opened Json
  import opened Api
  import GenericCrud
  import UseApi

  /**
   * The page's own `getText`: every falsy value (`0` and `false` included)
   * shows the dash, a string shows as it is, an object shows the first
   * truthy of the requested language, uz, ru, oz and en, else its first value.
   */
  function PostText(v: Value, lang: string): (r: Value)
    ensures Truthy(r)
    ensures !Truthy(v) ==> r == Str(GenericCrud.Dash)
    ensures v.Str? && Truthy(v) ==> r == v
    ensures IsObjectLike(v) ==> r == Str(GenericCrud.Dash) || r in ObjectValues(v)
    ensures v.Num? && Truthy(v) ==> r == Str(IntToString(v.n))
  {
    if !Truthy(v) then Str(GenericCrud.Dash)
    else if v.Str? then v
    else if IsObjectLike(v) then
      var keys := GenericCrud.LangOrder(lang);
      match GenericCrud.FirstTruthyKey(v, keys, 0)
      case Some(i) =>
        GenericCrud.GetValue(v, keys[i]);
        Get(v, keys[i])
      case None =>
        var vals := ObjectValues(v);
        if vals != [] && Truthy(vals[0]) then vals[0] else Str(GenericCrud.Dash)
    else Str(ToJsString(v))
  }

  /**
   * On an object, the first truthy property among the requested language,
   * uz, ru, oz and en is shown, as in the generic page.
   */
  lemma PostTextLanguageOrder(v: Value, lang: string, i: nat)
    requires IsObjectLike(v) && i < 5
    requires Truthy(Get(v, GenericCrud.LangOrder(lang)[i]))
    requires forall j :: 0 <= j < i ==> !Truthy(Get(v, GenericCrud.LangOrder(lang)[j]))
    ensures PostText(v, lang) == Get(v, GenericCrud.LangOrder(lang)[i])
    ensures PostText(v, lang) == GenericCrud.GetText(v, lang)
  {
    var r := GenericCrud.FirstTruthyKey(v, GenericCrud.LangOrder(lang), 0);
    assert r.Some? && r.value == i;
    GenericCrud.GetTextLanguageOrder(v, lang, i);
  }

  /**
   * On an object with none of those properties truthy, its first value is
   * shown when that is truthy, else the dash; later values are never tried.
   */
  lemma PostTextFirstValue(v: Value, lang: string)
    requires IsObjectLike(v)
    requires forall j :: 0 <= j < 5 ==> !Truthy(Get(v, GenericCrud.LangOrder(lang)[j]))
    ensures ObjectValues(v) != [] && Truthy(ObjectValues(v)[0]) ==> PostText(v, lang) == ObjectValues(v)[0]
    ensures (ObjectValues(v) == [] || !Truthy(ObjectValues(v)[0])) ==> PostText(v, lang) == Str(GenericCrud.Dash)
  {
    assert GenericCrud.FirstTruthyKey(v, GenericCrud.LangOrder(lang), 0).None?;
  }

  /**
   * The two `getText` variants agree on non-empty strings and differ on the
   * falsy scalars: `0` and `false` show `0` and `No` on the generic page but
   * the dash here.
   */
  lemma PostTextVersusGeneric(v: Value, lang: string)
    ensures v.Str? && v.s != "" ==> PostText(v, lang) == GenericCrud.GetText(v, lang) == v
    ensures v == Num(0) ==> PostText(v, lang) == Str(GenericCrud.Dash) && GenericCrud.GetText(v, lang) == Str("0")
    ensures v == Bool(false) ==> PostText(v, lang) == Str(GenericCrud.Dash) && GenericCrud.GetText(v, lang) == Str("No")
  {
    if v == Num(0) {
      assert IntToString(0) == "0";
    }
  }

  /** `vs.find(v => Array.isArray(v))`, as a position at or after `from`. */
  function FirstArrayAt(vs: seq<Value>, from: nat): (r: Option<nat>)
    ensures r.Some? ==> from <= r.value < |vs| && vs[r.value].Arr?
    ensures r.Some? ==> forall j :: from <= j < r.value ==> !vs[j].Arr?
    ensures r.None? ==> forall j :: from <= j < |vs| ==> !vs[j].Arr?
    decreases |vs| - from
  {
    if from >= |vs| then None
    else if vs[from].Arr? then Some(from)
    else FirstArrayAt(vs, from + 1)
  }

  /** The first array among an object's values, or `undefined`. */
  function FirstArrayValue(data: Value): (r: Value)
    ensures r == Undefined || (r.Arr? && r in ObjectValues(data))
    ensures r.Arr? ==> exists i :: 0 <= i < |ObjectValues(data)| && ObjectValues(data)[i] == r
                                   && forall j :: 0 <= j < i ==> !ObjectValues(data)[j].Arr?
    ensures r == Undefined <==> forall j :: 0 <= j < |ObjectValues(data)| ==> !ObjectValues(data)[j].Arr?
  {
    var vals := ObjectValues(data);
    match FirstArrayAt(vals, 0)
    case Some(i) => vals[i]
    case None => Undefined
  }

  /**
   * The posts a list response yields, or `None` when unwrapping throws (a
   * `null` response reaches `Object.values(null)`). The first of `data`,
   * `items`, `result` and `news` that is not `null`/`undefined` wins; then,
   * for a plain object, its first array-valued property; then the response
   * itself. Whatever wins yields posts only when it is an array.
   */
  function UnwrapPosts(data: Value): (r: Option<seq<Value>>)
    ensures r.None? <==> data.Null?
    ensures data.Arr? ==> r == Some(data.items)
    ensures !Nullish(Get(data, "data")) ==> r == Some(GenericCrud.AsList(Get(data, "data")))
    ensures Nullish(Get(data, "data")) && !Nullish(Get(data, "items")) ==> r == Some(GenericCrud.AsList(Get(data, "items")))
    ensures Nullish(Get(data, "data")) && Nullish(Get(data, "items")) && !Nullish(Get(data, "result")) ==>
              r == Some(GenericCrud.AsList(Get(data, "result")))
    ensures (Nullish(Get(data, "data")) && Nullish(Get(data, "items")) && Nullish(Get(data, "result"))
             && !Nullish(Get(data, "news"))) ==> r == Some(GenericCrud.AsList(Get(data, "news")))
    ensures data.Obj? && (forall k :: k in ["data", "items", "result", "news"] ==> Nullish(Get(data, k))) ==>
              r == Some(GenericCrud.AsList(FirstArrayValue(data)))
    ensures !data.Obj? && !data.Null? ==> r == Some(GenericCrud.AsList(data))
  {
    var named := Coalesce(Coalesce(Coalesce(Get(data, "data"), Get(data, "items")), Get(data, "result")), Get(data, "news"));
    if !Nullish(named) then Some(GenericCrud.AsList(named))
    else if data.Null? then None
    else
      var scanned := if data.Obj? || data.File? then FirstArrayValue(data) else Null;
      Some(GenericCrud.AsList(Coalesce(scanned, data)))
  }

  /** The form `handleEditOpen` fills: three texts through `getText`, and `published` defaulting to true. */
  function EditValuesFor(post: Value): (vs: seq<Entry>)
    ensures Keys(vs) == ["title", "content", "category", "published"]
    ensures DistinctKeys(vs)
    ensures forall i :: 0 <= i < 3 ==> Truthy(vs[i].val)
    ensures vs[0].val == PostText(Get(post, "title"), "uz") && vs[1].val == PostText(Get(post, "content"), "uz")
    ensures vs[2].val == PostText(Get(post, "category"), "uz")
    ensures vs[3].val == if Nullish(Get(post, "published")) then Bool(true) else Get(post, "published")
  {
    [Entry("title", PostText(Get(post, "title"), "uz")),
     Entry("content", PostText(Get(post, "content"), "uz")),
     Entry("category", PostText(Get(post, "category"), "uz")),
     Entry("published", Coalesce(Get(post, "published"), Bool(true)))]
  }

  /** `{...p, ...edits}` for each post with the edited id; the others stay as they are. */
  function MergeEdits(posts: seq<Value>, id: Value, edits: seq<Entry>): (r: seq<Value>)
    ensures |r| == |posts|
    ensures forall i :: 0 <= i < |posts| && GenericCrud.GetId(posts[i]) != id ==> r[i] == posts[i]
    ensures forall i :: 0 <= i < |posts| && GenericCrud.GetId(posts[i]) == id ==>
              r[i] == Obj(Merge(SpreadEntries(posts[i]), edits))
  {
    seq(|posts|, i requires 0 <= i < |posts| =>
      if GenericCrud.GetId(posts[i]) == id then Obj(Merge(SpreadEntries(posts[i]), edits)) else posts[i])
  }

  /** An edited post reads every edited property from the edits and every other from the post. */
  lemma MergedPost(post: Value, edits: seq<Entry>, k: string)
    requires post.Obj? && DistinctKeys(edits)
    ensures Get(Obj(Merge(SpreadEntries(post), edits)), k) == if k in Keys(edits) then Lookup(edits, k) else Get(post, k)
  {
    MergeLookup(post.entries, edits, k);
  }

  datatype PostsState = PostsState(posts: seq<Value>, loading: bool, deleteModal: Value, editModal: Value, editValues: seq<Entry>)

  /** The request URL of one post. */
  function PostUrl(id: Value): (url: string)
    ensures StartsWith(url, "/api/news/") && url[|"/api/news/"|..] == ToJsString(id)
  {
    "/api/news/" + ToJsString(id)
  }

  /** The state of the management page; each API call has its own `useApiCall` state. */
  class PostsManager {
    var posts: seq<Value>
    var loading: bool
    var deleteModal: Value
    var editModal: Value
    var editValues: seq<Entry>
    const deleteCall: UseApi.ApiCall
    const updateCall: UseApi.ApiCall

    function State(): PostsState
      reads this
    {
      PostsState(posts, loading, deleteModal, editModal, editValues)
    }

    ghost predicate Valid()
      reads this
    {
      deleteCall != updateCall
    }

    constructor ()
      ensures Valid() && fresh(deleteCall) && fresh(updateCall)
      ensures State() == PostsState([], false, Null, Null, [])
      ensures deleteCall.State() == UseApi.CallState(false, Null, Null)
      ensures updateCall.State() == UseApi.CallState(false, Null, Null)
    {
      posts, loading, deleteModal, editModal, editValues := [], false, Null, Null, [];
      deleteCall := new UseApi.ApiCall();
      updateCall := new UseApi.ApiCall();
    }

    /** `fetchPosts`: a response that unwraps replaces the posts; a failure or a throw keeps them. */
    method FetchPosts(outcome: Outcome)
      modifies this
      ensures outcome.Ok? && UnwrapPosts(outcome.data).Some? ==>
                State() == old(State()).(posts := UnwrapPosts(outcome.data).value, loading := false)
      ensures outcome.Err? || UnwrapPosts(outcome.data).None? ==> State() == old(State()).(loading := false)
    {
      loading := true;
      if outcome.Ok? {
        var unwrapped := UnwrapPosts(outcome.data);
        if unwrapped.Some? {
          posts := unwrapped.value;
        }
      }
      loading := false;
    }

    /** The row's Delete button: opens the confirmation for that post. */
    method RequestDelete(post: Value)
      modifies this
      ensures State() == old(State()).(deleteModal := post)
    {
      deleteModal := post;
    }

    /**
     * `handleDelete`: without a targeted post nothing happens; otherwise the
     * post is deleted, a success drops every post with its id, and the
     * dialog closes either way.
     */
    method HandleDelete(outcome: Outcome) returns (req: Option<Request>)
      requires Valid()
      modifies this, deleteCall
      ensures !Truthy(old(deleteModal)) ==> req.None? && State() == old(State()) && unchanged(deleteCall)
      ensures Truthy(old(deleteModal)) ==>
                && req == Some(Request(DELETE, PostUrl(GenericCrud.GetId(old(deleteModal))), NoBody))
                && State() == old(State()).(
                     deleteModal := Null,
                     posts := if outcome.Ok? then GenericCrud.RemoveById(old(posts), GenericCrud.GetId(old(deleteModal))) else old(posts))
                && !deleteCall.loading
      ensures unchanged(updateCall)
    {
      if !Truthy(deleteModal) {
        return None;
      }
      var id := GenericCrud.GetId(deleteModal);
      req := Some(Request(DELETE, PostUrl(id), NoBody));
      var result := deleteCall.Execute(outcome);
      if result.Succeeded? {
        posts := GenericCrud.RemoveById(posts, id);
      }
      deleteModal := Null;
    }

    /** `handleEditOpen`: opens the editor on the post with its values filled in. */
    method HandleEditOpen(post: Value)
      modifies this
      ensures State() == old(State()).(editModal := post, editValues := EditValuesFor(post))
    {
      editModal := post;
      editValues := EditValuesFor(post);
    }

    /** The title and content inputs of the editor. */
    method SetEditField(key: string, value: Value)
      requires key == "title" || key == "content"
      modifies this
      ensures State() == old(State()).(editValues := Put(old(editValues), key, value))
    {
      editValues := Put(editValues, key, value);
    }

    /** The editor's publish toggle: negates `published` and nothing else. */
    method ToggleEditPublished()
      modifies this
      ensures State() == old(State()).(editValues := Put(old(editValues), "published", Bool(!Truthy(Lookup(old(editValues), "published")))))
      ensures forall k :: k != "published" ==> Lookup(editValues, k) == Lookup(old(editValues), k)
      ensures Truthy(Lookup(editValues, "published")) <==> !Truthy(Lookup(old(editValues), "published"))
    {
      var flipped := Bool(!Truthy(Lookup(editValues, "published")));
      UseApi.PutLookupAll(editValues, "published", flipped);
      editValues := Put(editValues, "published", flipped);
    }

    /**
     * `handleEditSave`: without an edited post nothing happens; otherwise the
     * values are saved, and a success merges them into every cached post
     * with that id and closes the editor, while a failure keeps both.
     */
    method HandleEditSave(outcome: Outcome) returns (req: Option<Request>)
      requires Valid()
      modifies this, updateCall
      ensures !Truthy(old(editModal)) ==> req.None? && State() == old(State()) && unchanged(updateCall)
      ensures Truthy(old(editModal)) ==>
                && req == Some(Request(PUT, PostUrl(GenericCrud.GetId(old(editModal))), JsonBody(Obj(old(editValues)))))
                && !updateCall.loading
      ensures Truthy(old(editModal)) && outcome.Ok? ==>
                State() == old(State()).(editModal := Null,
                                         posts := MergeEdits(old(posts), GenericCrud.GetId(old(editModal)), old(editValues)))
      ensures Truthy(old(editModal)) && outcome.Err? ==> State() == old(State())
      ensures unchanged(deleteCall)
    {
      if !Truthy(editModal) {
        return None;
      }
      var id := GenericCrud.GetId(editModal);
      req := Some(Request(PUT, PostUrl(id), JsonBody(Obj(editValues))));
      var result := updateCall.Execute(outcome);
      if result.Succeeded? {
        posts := MergeEdits(posts, id, editValues);
        editModal := Null;
      }
    }
  }
}
