/**
  The per-user state of the bot (`user_stats`, `generated_images`) and the
  handlers that read and change it: `update_stats`, `handle_message`,
  `handle_image_generation`, `handle_wiki_request` and the three callback
  handlers `add_to_gallery`, `retry_image`, `handle_gallery_navigation`.
  The remote services are parameters; an exception raised before a handler
  changes a dictionary is an error outcome that leaves the state untouched.
  What happens to the bot after a handler raises is not modelled.
*/
module Bot {
  import opened Wrappers
  import opened Numbers
  import opened Payload
  import opened Gallery
  import opened Menu
  import Poll
  import Wiki

  // ---------------------------------------------------------------- counters

  /** `{'image_requests': ..., 'wiki_requests': ...}`. */
  datatype Stats = Stats(imageRequests: nat, wikiRequests: nat)

  /** The two keys `update_stats` is called with. */
  datatype Counter = ImageRequests | WikiRequests

  function CounterValue(s: Stats, c: Counter): nat
  {
    match c
    case ImageRequests => s.imageRequests
    case WikiRequests => s.wikiRequests
  }

  function Other(c: Counter): Counter
  {
    match c
    case ImageRequests => WikiRequests
    case WikiRequests => ImageRequests
  }

  /** `user_stats.get(u, {'image_requests': 0, 'wiki_requests': 0})`. */
  function StatsOf(m: map<int, Stats>, u: int): (s: Stats)
    ensures u in m ==> s == m[u]
    ensures u !in m ==> s == Stats(0, 0)
  {
    if u in m then m[u] else Stats(0, 0)
  }

  /**
    The table after `update_stats(u, c)`: `u` has a record, counter `c` of `u`
    is one more than before (counting from 0 for a new user), the other
    counter of `u` and the records of all other users are unchanged.
  */
  function Bumped(m: map<int, Stats>, u: int, c: Counter): (r: map<int, Stats>)
    ensures r.Keys == m.Keys + {u}
    ensures CounterValue(r[u], c) == CounterValue(StatsOf(m, u), c) + 1
    ensures CounterValue(r[u], Other(c)) == CounterValue(StatsOf(m, u), Other(c))
    ensures forall v :: v in m && v != u ==> r[v] == m[v]
  {
    var s := StatsOf(m, u);
    m[u := match c
           case ImageRequests => s.(imageRequests := s.imageRequests + 1)
           case WikiRequests => s.(wikiRequests := s.wikiRequests + 1)]
  }

  // ------------------------------------------------------------ image files

  /** `str(Path(f'users_data/{u}') / f'generated_image_{i}.jpg')`. */
  function ImagePath(u: int, i: int): string
  {
    "users_data/" + IntToString(u) + "/generated_image_" + IntToString(i) + ".jpg"
  }

  /** The paths of a batch of `n` images, in order. */
  function BatchPaths(u: int, n: nat): (paths: seq<string>)
    ensures |paths| == n
    ensures forall i :: 0 <= i < n ==> paths[i] == ImagePath(u, i)
  {
    seq(n, i => ImagePath(u, i))
  }

  /** The batch of `n + 1` images is the batch of `n` followed by image `n`. */
  lemma BatchPathsNext(u: int, n: nat)
    ensures BatchPaths(u, n + 1) == BatchPaths(u, n) + [ImagePath(u, n)]
  {
    var longer, shorter := BatchPaths(u, n + 1), BatchPaths(u, n) + [ImagePath(u, n)];
    assert |longer| == |shorter|;
    forall i | 0 <= i < n + 1
      ensures longer[i] == shorter[i]
    {
      if i < n {
        assert shorter[i] == BatchPaths(u, n)[i];
      }
    }
  }

  /** Within one batch the file names are distinct. */
  lemma ImagePathInjective(u: int, i: int, j: int)
    requires ImagePath(u, i) == ImagePath(u, j)
    ensures i == j
  {
    var prefix := "users_data/" + IntToString(u) + "/generated_image_";
    var si, sj := IntToString(i), IntToString(j);
    var a, b := ImagePath(u, i), ImagePath(u, j);
    assert a == prefix + si + ".jpg" && b == prefix + sj + ".jpg";
    assert |si| == |sj|;
    assert a[|prefix|..|prefix| + |si|] == si;
    assert b[|prefix|..|prefix| + |sj|] == sj;
    IntToStringInjective(i, j);
  }

  /** A path that lies in the folder `users_data/{u}`, as the gallery of `u` holds. */
  ghost predicate InFolderOf(u: int, path: string)
  {
    exists i: nat :: path == ImagePath(u, i)
  }

  /** Every gallery entry names an image in its owner's folder. */
  ghost predicate GalleriesInFolders(galleries: map<int, seq<string>>)
  {
    forall u, j :: u in galleries && 0 <= j < |galleries[u]| ==> InFolderOf(u, galleries[u][j])
  }

  /** Appending images of the owner's folder keeps every gallery in its owner's folder. */
  lemma AppendInFolder(galleries: map<int, seq<string>>, u: int, extra: seq<string>)
    requires GalleriesInFolders(galleries)
    requires forall j :: 0 <= j < |extra| ==> InFolderOf(u, extra[j])
    ensures GalleriesInFolders(galleries[u := GalleryOf(galleries, u) + extra])
  {
    var before := GalleryOf(galleries, u);
    var grown := before + extra;
    var after := galleries[u := grown];
    forall v, j | v in after && 0 <= j < |after[v]|
      ensures InFolderOf(v, after[v][j])
    {
      if v != u {
        assert after[v] == galleries[v];
      } else if j < |before| {
        assert after[v][j] == before[j] == galleries[u][j];
      } else {
        assert after[v][j] == extra[j - |before|];
      }
    }
  }

  /** The paths of a batch lie in the user's folder. */
  lemma BatchInFolder(u: int, n: nat)
    ensures forall j :: 0 <= j < n ==> InFolderOf(u, BatchPaths(u, n)[j])
  {
    forall j | 0 <= j < n
      ensures InFolderOf(u, BatchPaths(u, n)[j])
    {
      assert BatchPaths(u, n)[j] == ImagePath(u, j);
    }
  }

  // ------------------------------------------------------- image generation

  /**
    The remote text-to-image service: the model id `get_model` returns (`None`
    when it raised), the job id `generate(prompt, model)` returns, the answer to
    each status query of a job, and whether `save_image` succeeds on a payload.
  */
  datatype ImageApi = ImageApi(
    model: Option<string>,
    run: (string, string) -> Option<string>,
    status: (string, nat) -> Poll.Response,
    decodes: string -> bool)

  /** `check_generation(uuid)` uses its default of 10 attempts. */
  const MaxAttempts: int := 10

  /** The step of `handle_image_generation` that raised. */
  datatype GenError =
    | ModelUnavailable        // get_model
    | SubmitFailed            // generate
    | StatusFailed            // a status query of check_generation
    | TimedOut                // check_generation returned None; `enumerate(None)` raises
    | DecodeFailed(index: nat) // save_image of the image at this batch index

  function StatusSource(api: ImageApi, job: string): nat -> Poll.Response
  {
    (k: nat) => api.status(job, k)
  }

  /** The images `get_model`, `generate` and `check_generation` deliver for a prompt. */
  function FetchImages(api: ImageApi, prompt: string): Result<seq<string>, GenError>
  {
    match api.model
    case None => Failure(ModelUnavailable)
    case Some(model) =>
      match api.run(prompt, model)
      case None => Failure(SubmitFailed)
      case Some(job) =>
        match Poll.Poll(StatusSource(api, job), MaxAttempts).outcome
        case Done(images) => Success(images)
        case Exhausted => Failure(TimedOut)
        case Failed => Failure(StatusFailed)
  }

  /** `get_model`, `generate` and `check_generation`, in that order, each aborting the handler on failure. */
  method Fetch(api: ImageApi, prompt: string) returns (r: Result<seq<string>, GenError>)
    ensures r == FetchImages(api, prompt)
  {
    if api.model.None? {
      return Failure(ModelUnavailable);
    }
    var job := api.run(prompt, api.model.value);
    if job.None? {
      return Failure(SubmitFailed);
    }
    var polled, queries := Poll.CheckGeneration(StatusSource(api, job.value), MaxAttempts);
    match polled {
      case Exhausted => r := Failure(TimedOut);
      case Failed => r := Failure(StatusFailed);
      case Done(images) => r := Success(images);
    }
  }

  /** Index of the first payload `save_image` fails on, or `|images|` when there is none. */
  function FirstUndecodable(images: seq<string>, decodes: string -> bool): (k: nat)
    ensures k <= |images|
    ensures forall j :: 0 <= j < k ==> decodes(images[j])
    ensures k < |images| ==> !decodes(images[k])
    decreases |images|
  {
    if images == [] || !decodes(images[0]) then 0
    else
      var rest := FirstUndecodable(images[1..], decodes);
      assert forall j :: 1 <= j <= rest && j < |images| ==> images[j] == images[1..][j - 1];
      1 + rest
  }

  /** What the save loop produces: the batch's paths, or the index of the payload it stopped at. */
  function Saved(u: int, images: seq<string>, decodes: string -> bool): Result<seq<string>, nat>
  {
    var k := FirstUndecodable(images, decodes);
    if k == |images| then Success(BatchPaths(u, |images|)) else Failure(k)
  }

  /** When the payloads before `i` decode and the one at `i` does not, or `i` is the end, the loop's result is decided. */
  lemma SavedAt(u: int, images: seq<string>, decodes: string -> bool, i: nat)
    requires i <= |images|
    requires forall j :: 0 <= j < i ==> decodes(images[j])
    requires i < |images| ==> !decodes(images[i])
    ensures Saved(u, images, decodes) == if i == |images| then Success(BatchPaths(u, i)) else Failure(i)
  {
    assert FirstUndecodable(images, decodes) == i;
  }

  /** The loop `for i, img in enumerate(images)` that saves each image and collects its path. */
  method SaveImages(u: int, images: seq<string>, decodes: string -> bool)
    returns (r: Result<seq<string>, nat>)
    ensures r == Saved(u, images, decodes)
  {
    var paths: seq<string> := [];
    var i: nat := 0;
    while i < |images| && decodes(images[i])
      invariant i <= |images|
      invariant paths == BatchPaths(u, i)
      invariant forall j :: 0 <= j < i ==> decodes(images[j])
    {
      BatchPathsNext(u, i);
      paths := paths + [ImagePath(u, i)];
      i := i + 1;
    }
    SavedAt(u, images, decodes, i);
    if i < |images| {
      r := Failure(i);
    } else {
      r := Success(paths);
    }
  }

  /** The new gallery paths of a generation, or the step that raised. */
  function GenerationResult(api: ImageApi, u: int, prompt: string): Result<seq<string>, GenError>
  {
    match FetchImages(api, prompt)
    case Failure(e) => Failure(e)
    case Success(images) =>
      match Saved(u, images, api.decodes)
      case Success(paths) => Success(paths)
      case Failure(k) => Failure(DecodeFailed(k))
  }

  /**
    A generation succeeds exactly when the service delivers images and every
    one of them is saved; its paths are then `generated_image_0.jpg` ...
    `generated_image_{n-1}.jpg` in the user's folder, one per image. Otherwise
    the error names the first step that raised, and for a save the first
    image that could not be saved.
  */
  lemma GenerationPaths(api: ImageApi, u: int, prompt: string)
    ensures var r := GenerationResult(api, u, prompt);
      && (r.Success? <==>
            FetchImages(api, prompt).Success? &&
            forall j :: 0 <= j < |FetchImages(api, prompt).value| ==> api.decodes(FetchImages(api, prompt).value[j]))
      && (r.Success? ==> r.value == BatchPaths(u, |FetchImages(api, prompt).value|))
      && (FetchImages(api, prompt).Failure? ==> r == Failure(FetchImages(api, prompt).error))
      && (r.Failure? && r.error.DecodeFailed? ==>
            var images := FetchImages(api, prompt).value;
            && r.error.index < |images|
            && !api.decodes(images[r.error.index])
            && forall j :: 0 <= j < r.error.index ==> api.decodes(images[j]))
  {
  }

  /** The two inline buttons sent under each new photo. */
  datatype Controls = Controls(photo: string, addLabel: nat, addData: string, retryData: string)

  /** `f"add_{u}_{index}"`. */
  function AddData(u: int, index: int): string
  {
    Encode("add", IntToString(u), IntToString(index))
  }

  /** `f"retry_{u}_{prompt}"`. */
  function RetryData(u: int, prompt: string): string
  {
    Encode("retry", IntToString(u), prompt)
  }

  /** The buttons of a batch: "add" carries the batch index, "retry" the prompt. */
  function BatchControls(u: int, prompt: string, paths: seq<string>, total: nat): (cs: seq<Controls>)
    ensures |cs| == |paths|
    ensures forall i :: 0 <= i < |paths| ==>
      cs[i] == Controls(paths[i], total + 1, AddData(u, i), RetryData(u, prompt))
  {
    seq(|paths|, i requires 0 <= i < |paths| => Controls(paths[i], total + 1, AddData(u, i), RetryData(u, prompt)))
  }

  /** What `handle_image_generation` produces. */
  datatype GenOutcome = Generated(controls: seq<Controls>) | GenFailed(error: GenError)

  // -------------------------------------------------------- callback parsing

  /** Why a callback handler stopped before doing anything. */
  datatype Rejection =
    | Corrupted   // not exactly three `_`-separated parts: "data corrupted"
    | BadNumber   // `int(...)` raised ValueError

  /** What `add_to_gallery` does with a payload. */
  datatype AddOutcome =
    | AddRejected(reason: Rejection)
    | NoImages                      // gallery missing or empty
    | AddIndexError                 // `generated_images[u][int(index)]` raised IndexError
    | ImageMissing(path: string)    // `os.path.exists` is false
    | Added(uid: int, path: string) // `path` appended to the gallery of `uid`

  /** The decisions of `add_to_gallery`, in the order the source takes them. */
  function AddDecision(galleries: map<int, seq<string>>, data: string, fileExists: string -> bool): (r: AddOutcome)
    ensures r == AddRejected(Corrupted) <==> Decode(data).None?
    ensures r == NoImages ==>
      Decode(data).Some? && ParseInt(Decode(data).value.uid).Some? &&
      GalleryOf(galleries, ParseInt(Decode(data).value.uid).value) == []
  {
    match Decode(data)
    case None => AddRejected(Corrupted)
    case Some(f) =>
      match ParseInt(f.uid)
      case None => AddRejected(BadNumber)
      case Some(u) =>
        var images := GalleryOf(galleries, u);
        if images == [] then NoImages
        else
          match ParseInt(f.field)
          case None => AddRejected(BadNumber)
          case Some(index) =>
            match PyIndex(images, index)
            case None => AddIndexError
            case Some(path) => if fileExists(path) then Added(u, path) else ImageMissing(path)
  }

  /**
    An "add" payload the bot writes for user `u` and a position of the
    gallery (Python also accepts negative positions) selects the image at that
    position: it is appended when its file exists. An empty gallery is
    rejected.
  */
  lemma AddDecisionAt(galleries: map<int, seq<string>>, u: int, index: int, fileExists: string -> bool)
    ensures var images := GalleryOf(galleries, u);
      var r := AddDecision(galleries, AddData(u, index), fileExists);
      && (images == [] ==> r == NoImages)
      && (images != [] && PyIndex(images, index).None? ==> r == AddIndexError)
      && (images != [] && PyIndex(images, index).Some? ==>
            var path := PyIndex(images, index).value;
            r == if fileExists(path) then Added(u, path) else ImageMissing(path))
  {
    IntToStringHasNo(u, Sep);
    IntToStringHasNo(index, Sep);
    DecodeEncode("add", IntToString(u), IntToString(index));
    ParseIntToString(u);
    ParseIntToString(index);
  }

  /** An appended image is one already in the gallery of the payload's user. */
  lemma AddDecisionAdded(galleries: map<int, seq<string>>, data: string, fileExists: string -> bool)
    requires AddDecision(galleries, data, fileExists).Added?
    ensures var r := AddDecision(galleries, data, fileExists);
      r.uid in galleries && r.path in galleries[r.uid] && fileExists(r.path)
  {
    var f := Decode(data).value;
    var u := ParseInt(f.uid).value;
    var images := GalleryOf(galleries, u);
    var index := ParseInt(f.field).value;
    var path := PyIndex(images, index).value;
    assert AddDecision(galleries, data, fileExists) == Added(u, path);
    var k := if index >= 0 then index else |images| + index;
    assert images[k] == path;
  }

  /** `retry_image` re-enters `handle_image_generation` for this user with this message text. */
  datatype RetryRequest = RetryRequest(uid: int, text: string)

  /** The parsing in `retry_image`. */
  function RetryDecision(data: string): (r: Result<RetryRequest, Rejection>)
    ensures r == Failure(Corrupted) <==> Decode(data).None?
    ensures r.Success? ==>
      && Decode(data).Some? && ParseInt(Decode(data).value.uid) == Some(r.value.uid)
      && PromptOf(r.value.text) == Decode(data).value.field
  {
    match Decode(data)
    case None => Failure(Corrupted)
    case Some(f) =>
      match ParseInt(f.uid)
      case None => Failure(BadNumber)
      case Some(u) =>
        PromptOfRetryText(f.field);
        Success(RetryRequest(u, RetryText(f.field)))
  }

  /**
    The "retry" button of a prompt without `_` regenerates that very prompt
    for the same user; a prompt holding `_` makes the button's payload
    corrupted.
  */
  lemma RetryRoundTrip(u: int, prompt: string)
    ensures Sep !in prompt ==>
      RetryDecision(RetryData(u, prompt)) == Success(RetryRequest(u, RetryText(prompt))) &&
      PromptOf(RetryText(prompt)) == prompt
    ensures Sep in prompt ==> RetryDecision(RetryData(u, prompt)) == Failure(Corrupted)
  {
    IntToStringHasNo(u, Sep);
    if Sep !in prompt {
      DecodeEncode("retry", IntToString(u), prompt);
      ParseIntToString(u);
      PromptOfRetryText(prompt);
    } else {
      DecodeEncodeRejects("retry", IntToString(u), prompt);
    }
  }

  /** What `retry_image` produces. */
  datatype RetryOutcome =
    | RetryRejected(reason: Rejection)
    | RetryCrashed(uid: int, text: string)   // the announcement was sent, then building the message raised
    | Regenerated(uid: int, prompt: string, generation: GenOutcome)

  /** What a button press produces, by the handler it reaches. */
  datatype CallbackOutcome =
    | Ignored                       // no handler's prefix matches
    | AddResult(add: AddOutcome)
    | RetryResult(retry: RetryOutcome)
    | Navigated(nav: NavOutcome)

  /** What `handle_message` replies. */
  datatype MenuReply =
    | AskPrompt                 // asks for a prompt; the next message goes to `handle_image_generation`
    | AskQuery                  // asks for a phrase; the next message goes to `handle_wiki_request`
    | StatsReply(stats: Stats)
    | GalleryReply(view: View)
    | HelperReply(examples: string)
    | ChooseAction              // the fallback "please choose an action"

  // ------------------------------------------------------- handler effects

  /** The contents of the two global dictionaries. */
  datatype Tables = Tables(stats: map<int, Stats>, galleries: map<int, seq<string>>)

  /** The dictionaries after a handler, together with what it produced. */
  datatype Handled<O> = Handled(tables: Tables, out: O)

  /** Every gallery of `before` is still there in `after`, as a prefix of the new gallery. */
  ghost predicate GalleriesGrow(before: map<int, seq<string>>, after: map<int, seq<string>>)
  {
    forall u :: u in before ==> u in after && before[u] <= after[u]
  }

  /** Every user of `before` is still there in `after`, and neither of their counters went down. */
  ghost predicate CountersGrow(before: map<int, Stats>, after: map<int, Stats>)
  {
    forall u :: u in before ==>
      && u in after
      && before[u].imageRequests <= after[u].imageRequests
      && before[u].wikiRequests <= after[u].wikiRequests
  }

  lemma BumpedGrows(m: map<int, Stats>, u: int, c: Counter)
    ensures CountersGrow(m, Bumped(m, u, c))
  {
    var r := Bumped(m, u, c);
    forall v | v in m
      ensures v in r && m[v].imageRequests <= r[v].imageRequests && m[v].wikiRequests <= r[v].wikiRequests
    {
      if v == u {
        assert StatsOf(m, u) == m[u];
        match c {
          case ImageRequests =>
            assert r[u].wikiRequests == CounterValue(r[u], Other(c));
          case WikiRequests =>
            assert r[u].imageRequests == CounterValue(r[u], Other(c));
        }
      }
    }
  }

  /** `handle_image_generation` for user `u` and a prompt, on the dictionaries `t`. */
  function Generate(t: Tables, u: int, prompt: string, api: ImageApi): Handled<GenOutcome>
  {
    match GenerationResult(api, u, prompt)
    case Failure(e) => Handled(t, GenFailed(e))
    case Success(paths) =>
      var before := GalleryOf(t.galleries, u);
      Handled(Tables(Bumped(t.stats, u, ImageRequests), t.galleries[u := before + paths]),
              Generated(BatchControls(u, prompt, paths, |before| + |paths|)))
  }

  /**
    A generation succeeds exactly when the service delivers images and all of
    them are saved. Then `generated_image_0.jpg` ... `generated_image_{n-1}.jpg`
    of the user's folder are appended to the end of that user's gallery, no
    other gallery changes, and only `image_requests` of that user goes up, by
    one; the buttons of the new photos are those of `BatchControls`, each
    labelled with the new gallery length plus one. On any failure neither
    dictionary changes. The galleries only grow,
    the counters never go down, and every gallery stays in its owner's folder.
  */
  lemma GenerateEffect(t: Tables, u: int, prompt: string, api: ImageApi)
    ensures var s := Generate(t, u, prompt, api);
      var fetched := FetchImages(api, prompt);
      && (s.out.Generated? <==>
            fetched.Success? && forall j :: 0 <= j < |fetched.value| ==> api.decodes(fetched.value[j]))
      && (s.out.Generated? ==>
            && u in s.tables.galleries
            && s.tables.galleries[u] == GalleryOf(t.galleries, u) + BatchPaths(u, |fetched.value|)
            && (forall v :: v != u ==> (v in s.tables.galleries <==> v in t.galleries))
            && (forall v :: v in t.galleries && v != u ==> s.tables.galleries[v] == t.galleries[v])
            && s.tables.stats == Bumped(t.stats, u, ImageRequests)
            && s.out.controls == BatchControls(u, prompt, BatchPaths(u, |fetched.value|), |s.tables.galleries[u]|)
            && |s.out.controls| == |fetched.value|
            && forall i :: 0 <= i < |s.out.controls| ==> s.out.controls[i].addLabel == |s.tables.galleries[u]| + 1)
      && (s.out.GenFailed? ==> s.tables == t && s.out.error == GenerationResult(api, u, prompt).error)
      && GalleriesGrow(t.galleries, s.tables.galleries)
      && CountersGrow(t.stats, s.tables.stats)
      && (GalleriesInFolders(t.galleries) ==> GalleriesInFolders(s.tables.galleries))
  {
    GenerationPaths(api, u, prompt);
    var r := GenerationResult(api, u, prompt);
    if r.Success? {
      BumpedGrows(t.stats, u, ImageRequests);
      var n := |FetchImages(api, prompt).value|;
      assert r.value == BatchPaths(u, n);
      if GalleriesInFolders(t.galleries) {
        BatchInFolder(u, n);
        AppendInFolder(t.galleries, u, r.value);
      }
    }
  }

  /** `add_to_gallery` on the dictionaries `t`. */
  function AddStep(t: Tables, data: string, fileExists: string -> bool): Handled<AddOutcome>
  {
    var out := AddDecision(t.galleries, data, fileExists);
    if out.Added? then
      Handled(t.(galleries := t.galleries[out.uid := GalleryOf(t.galleries, out.uid) + [out.path]]), out)
    else
      Handled(t, out)
  }

  /**
    Only an accepted "add" changes anything: the gallery of that user grows by
    one entry, an existing one of its own, whose file exists; the earlier
    entries stay. The statistics never change, and every gallery stays in its
    owner's folder, so the added path does too.
  */
  lemma AddStepEffect(t: Tables, data: string, fileExists: string -> bool)
    ensures var s := AddStep(t, data, fileExists);
      && s.out == AddDecision(t.galleries, data, fileExists)
      && s.tables.stats == t.stats
      && (!s.out.Added? ==> s.tables == t)
      && (s.out.Added? ==>
            && s.out.uid in t.galleries
            && s.out.path in t.galleries[s.out.uid]
            && fileExists(s.out.path)
            && s.tables.galleries == t.galleries[s.out.uid := t.galleries[s.out.uid] + [s.out.path]])
      && GalleriesGrow(t.galleries, s.tables.galleries)
      && (GalleriesInFolders(t.galleries) ==> GalleriesInFolders(s.tables.galleries))
      && (GalleriesInFolders(t.galleries) && s.out.Added? ==> InFolderOf(s.out.uid, s.out.path))
  {
    var out := AddDecision(t.galleries, data, fileExists);
    if out.Added? {
      AddDecisionAdded(t.galleries, data, fileExists);
      var u, before := out.uid, t.galleries[out.uid];
      var k :| 0 <= k < |before| && before[k] == out.path;
      if GalleriesInFolders(t.galleries) {
        assert InFolderOf(u, before[k]);
        assert InFolderOf(u, [out.path][0]);
        AppendInFolder(t.galleries, u, [out.path]);
      }
    }
  }

  /**
    `retry_image` as written. After a payload parses, main.py:217 announces
    the regeneration and main.py:219 builds `telebot.types.Message(chat=...,
    text=...)`, which raises (the constructor has no `text` argument), so the
    handler ends there and nothing changes.
  */
  function RetryAsWritten(t: Tables, data: string): Handled<RetryOutcome>
  {
    match RetryDecision(data)
    case Failure(reason) => Handled(t, RetryRejected(reason))
    case Success(req) => Handled(t, RetryCrashed(req.uid, req.text))
  }

  /** As written, no retry press regenerates anything or changes a dictionary. */
  lemma RetryAsWrittenNeverRegenerates(t: Tables, data: string)
    ensures RetryAsWritten(t, data).tables == t
    ensures !RetryAsWritten(t, data).out.Regenerated?
    ensures RetryAsWritten(t, data).out.RetryCrashed? <==> RetryDecision(data).Success?
  {
  }

  /**
    As written, even the retry button the bot itself wrote for user `u` and a
    `_`-free prompt (`retry_42_cat`, say) reaches the crash: the parse
    succeeds, then the handler raises without generating.
  */
  lemma RetryAsWrittenOwnButton(t: Tables, u: int, prompt: string)
    requires Sep !in prompt
    ensures RetryAsWritten(t, RetryData(u, prompt)) == Handled(t, RetryCrashed(u, RetryText(prompt)))
  {
    RetryRoundTrip(u, prompt);
  }

  /**
    `retry_image` as intended: a payload that parses runs `handle_image_generation`
    for the payload's user with the text `!` + prompt.
  */
  function RetryStep(t: Tables, data: string, api: ImageApi): Handled<RetryOutcome>
  {
    match RetryDecision(data)
    case Failure(reason) => Handled(t, RetryRejected(reason))
    case Success(req) =>
      var prompt := PromptOf(req.text);
      var g := Generate(t, req.uid, prompt, api);
      Handled(g.tables, Regenerated(req.uid, prompt, g.out))
  }

  /**
    The retry button the bot writes for user `u` and a `_`-free prompt
    regenerates exactly that prompt for `u`, with the effect `Generate` has;
    a prompt holding `_` makes the press a rejected, state-free one.
  */
  lemma RetryStepOwnButton(t: Tables, u: int, prompt: string, api: ImageApi)
    ensures Sep !in prompt ==>
      var g := Generate(t, u, prompt, api);
      RetryStep(t, RetryData(u, prompt), api) == Handled(g.tables, Regenerated(u, prompt, g.out))
    ensures Sep in prompt ==>
      RetryStep(t, RetryData(u, prompt), api) == Handled(t, RetryRejected(Corrupted))
  {
    RetryRoundTrip(u, prompt);
  }

  /** A rejected retry changes nothing; any retry only grows the galleries and counters. */
  lemma RetryStepEffect(t: Tables, data: string, api: ImageApi)
    ensures var s := RetryStep(t, data, api);
      && (RetryDecision(data).Failure? ==> s == Handled(t, RetryRejected(RetryDecision(data).error)))
      && (RetryDecision(data).Success? ==> s.out.Regenerated? && s.out.uid == RetryDecision(data).value.uid)
      && GalleriesGrow(t.galleries, s.tables.galleries)
      && CountersGrow(t.stats, s.tables.stats)
      && (GalleriesInFolders(t.galleries) ==> GalleriesInFolders(s.tables.galleries))
  {
    match RetryDecision(data) {
      case Failure(_) =>
      case Success(req) =>
        GenerateEffect(t, req.uid, PromptOf(req.text), api);
    }
  }

  /** A button press on the dictionaries `t`, by the handler its prefix selects. */
  function CallbackStep(t: Tables, data: string, fileExists: string -> bool, api: ImageApi): Handled<CallbackOutcome>
  {
    match RouteOf(data)
    case None => Handled(t, Ignored)
    case Some(AddRoute) =>
      var s := AddStep(t, data, fileExists);
      Handled(s.tables, AddResult(s.out))
    case Some(RetryRoute) =>
      var s := RetryStep(t, data, api);
      Handled(s.tables, RetryResult(s.out))
    case Some(GalleryRoute) => Handled(t, Navigated(Navigate(t.galleries, data)))
  }

  /**
    What any button press can do: galleries only grow and counters never go
    down; only a retry touches the statistics; a gallery changes only by an
    accepted "add", which appends one entry, or by a retry; an unrouted press
    and a navigation change nothing; every gallery stays in its owner's folder.
  */
  lemma CallbackEffect(t: Tables, data: string, fileExists: string -> bool, api: ImageApi)
    ensures var s := CallbackStep(t, data, fileExists, api);
      && GalleriesGrow(t.galleries, s.tables.galleries)
      && CountersGrow(t.stats, s.tables.stats)
      && (RouteOf(data) != Some(RetryRoute) ==> s.tables.stats == t.stats)
      && (s.tables.galleries != t.galleries ==>
            RouteOf(data) == Some(RetryRoute) || (s.out.AddResult? && s.out.add.Added?))
      && (s.out.AddResult? && s.out.add.Added? ==>
            var a := s.out.add;
            a.uid in t.galleries && s.tables.galleries == t.galleries[a.uid := t.galleries[a.uid] + [a.path]])
      && (RouteOf(data).None? ==> s == Handled(t, Ignored))
      && (RouteOf(data) == Some(GalleryRoute) ==> s == Handled(t, Navigated(Navigate(t.galleries, data))))
      && (GalleriesInFolders(t.galleries) ==> GalleriesInFolders(s.tables.galleries))
  {
    match RouteOf(data) {
      case None =>
      case Some(AddRoute) =>
        AddStepEffect(t, data, fileExists);
      case Some(RetryRoute) =>
        RetryStepEffect(t, data, api);
      case Some(GalleryRoute) =>
    }
  }

  /** Every image the gallery shows lies in the folder of the user it is shown to. */
  lemma ShownImageInFolder(galleries: map<int, seq<string>>, u: int, index: int)
    requires GalleriesInFolders(galleries)
    requires Render(galleries, u, index).Show?
    ensures InFolderOf(u, Render(galleries, u, index).image)
  {
    assert Render(galleries, u, index).image == galleries[u][index];
  }

  // ------------------------------------------------------------- the state

  /** The two global dictionaries of the bot. */
  class UserState {
    var userStats: map<int, Stats>
    var generatedImages: map<int, seq<string>>

    /**
      Every gallery entry names an image in its owner's folder; every handler
      keeps this, so every image shown or added is one of the user's own
      (`ShownImageInFolder`, `AddStepEffect`).
    */
    ghost predicate Valid()
      reads this
    {
      GalleriesInFolders(generatedImages)
    }

    /** The current contents of the two dictionaries. */
    function Snapshot(): Tables
      reads this
    {
      Tables(userStats, generatedImages)
    }

    /** The state at process start: both dictionaries empty. */
    constructor ()
      ensures Valid()
      ensures userStats == map[] && generatedImages == map[]
    {
      userStats := map[];
      generatedImages := map[];
    }

    /** `update_stats(u, c)`. */
    method UpdateStats(u: int, c: Counter)
      modifies this
      ensures userStats == Bumped(old(userStats), u, c)
      ensures generatedImages == old(generatedImages)
    {
      if u !in userStats {
        userStats := userStats[u := Stats(0, 0)];
      }
      var s := userStats[u];
      match c {
        case ImageRequests =>
          userStats := userStats[u := s.(imageRequests := s.imageRequests + 1)];
        case WikiRequests =>
          userStats := userStats[u := s.(wikiRequests := s.wikiRequests + 1)];
      }
    }

    /**
      `handle_message(message)` for a text of user `u`. It changes no state:
      the statistics of an unknown user read as zero without creating a record,
      and the gallery opens at index 0.
    */
    function HandleMessage(u: int, text: string): (r: MenuReply)
      reads this
      ensures r == ChooseAction <==> Dispatch(text).None?
      ensures Dispatch(text) == Some(GenerateImage) ==> r == AskPrompt
      ensures Dispatch(text) == Some(WikiLookup) ==> r == AskQuery
      ensures Dispatch(text) == Some(Statistics) ==> r == StatsReply(StatsOf(userStats, u))
      ensures Dispatch(text) == Some(Statistics) && u !in userStats ==> r == StatsReply(Stats(0, 0))
      ensures Dispatch(text) == Some(ImageGallery) ==> r == GalleryReply(Render(generatedImages, u, 0))
      ensures Dispatch(text) == Some(Helper) ==> r == HelperReply(HelperExamples)
    {
      match Dispatch(text)
      case None => ChooseAction
      case Some(GenerateImage) => AskPrompt
      case Some(WikiLookup) => AskQuery
      case Some(Statistics) => StatsReply(StatsOf(userStats, u))
      case Some(ImageGallery) => GalleryReply(Render(generatedImages, u, 0))
      case Some(Helper) => HelperReply(HelperExamples)
    }

    /**
      `handle_image_generation(message)` for a message of user `u`: the prompt
      is the text without its first character, and the new dictionaries and
      the outcome are those `Generate` describes (see `GenerateEffect`).
    */
    method HandleImageGeneration(u: int, text: string, api: ImageApi)
      returns (prompt: string, out: GenOutcome)
      requires Valid()
      modifies this
      ensures Valid()
      ensures prompt == PromptOf(text)
      ensures Handled(Snapshot(), out) == Generate(old(Snapshot()), u, prompt, api)
    {
      prompt := PromptOf(text);
      ghost var t := Snapshot();
      GenerateEffect(t, u, prompt, api);
      var fetched := Fetch(api, prompt);
      if fetched.Failure? {
        return prompt, GenFailed(fetched.error);
      }
      var images := fetched.value;
      var saved := SaveImages(u, images, api.decodes);
      if saved.Failure? {
        return prompt, GenFailed(DecodeFailed(saved.error));
      }
      var paths := saved.value;
      assert GenerationResult(api, u, prompt) == Success(paths);
      var before := GalleryOf(generatedImages, u);
      generatedImages := generatedImages[u := before + paths];
      out := Generated(BatchControls(u, prompt, paths, |before| + |paths|));
      UpdateStats(u, ImageRequests);
    }

    /**
      `handle_wiki_request(message)`: reply with `getwiki`, then count the
      request; a failed lookup is counted too. The galleries do not change.
    */
    method HandleWikiRequest(u: int, page: Option<string>) returns (reply: string)
      requires Valid()
      modifies this
      ensures Valid()
      ensures reply == Wiki.WikiText(page)
      ensures userStats == Bumped(old(userStats), u, WikiRequests)
      ensures generatedImages == old(generatedImages)
      ensures CountersGrow(old(userStats), userStats)
    {
      reply := Wiki.GetWiki(page);
      BumpedGrows(userStats, u, WikiRequests);
      UpdateStats(u, WikiRequests);
    }

    /** `add_to_gallery(call)`: the effect `AddStep` describes (see `AddStepEffect`). */
    method AddToGallery(data: string, fileExists: string -> bool) returns (out: AddOutcome)
      requires Valid()
      modifies this
      ensures Valid()
      ensures Handled(Snapshot(), out) == AddStep(old(Snapshot()), data, fileExists)
    {
      AddStepEffect(Snapshot(), data, fileExists);
      out := AddDecision(generatedImages, data, fileExists);
      if out.Added? {
        generatedImages := generatedImages[out.uid := GalleryOf(generatedImages, out.uid) + [out.path]];
      }
    }

    /**
      `retry_image(call)` with the regeneration main.py:219 is meant to start:
      the effect `RetryStep` describes (see `RetryStepEffect`, `RetryStepOwnButton`).
    */
    method RetryImage(data: string, api: ImageApi) returns (out: RetryOutcome)
      requires Valid()
      modifies this
      ensures Valid()
      ensures Handled(Snapshot(), out) == RetryStep(old(Snapshot()), data, api)
    {
      match RetryDecision(data) {
        case Failure(reason) =>
          out := RetryRejected(reason);
        case Success(req) =>
          var prompt, generation := HandleImageGeneration(req.uid, req.text, api);
          out := Regenerated(req.uid, prompt, generation);
      }
    }

    /**
      A button press: the handler is chosen by the payload's prefix, with the
      effect `CallbackStep` describes. The galleries only grow, the counters
      never go down, and an accepted "add" appends exactly its path.
    */
    method HandleCallback(data: string, fileExists: string -> bool, api: ImageApi) returns (out: CallbackOutcome)
      requires Valid()
      modifies this
      ensures Valid()
      ensures Handled(Snapshot(), out) == CallbackStep(old(Snapshot()), data, fileExists, api)
      ensures GalleriesGrow(old(generatedImages), generatedImages)
      ensures CountersGrow(old(userStats), userStats)
      ensures RouteOf(data) != Some(RetryRoute) ==> userStats == old(userStats)
      ensures out.AddResult? && out.add.Added? ==>
        && out.add.uid in old(generatedImages)
        && generatedImages == old(generatedImages)[out.add.uid := old(generatedImages)[out.add.uid] + [out.add.path]]
    {
      CallbackEffect(Snapshot(), data, fileExists, api);
      match RouteOf(data) {
        case None =>
          out := Ignored;
        case Some(AddRoute) =>
          var added := AddToGallery(data, fileExists);
          out := AddResult(added);
        case Some(RetryRoute) =>
          var retried := RetryImage(data, api);
          out := RetryResult(retried);
        case Some(GalleryRoute) =>
          out := Navigated(Navigate(generatedImages, data));
      }
    }
  }

  /**
    A generation's "add" buttons carry the batch index; read back by
    `add_to_gallery` it selects that position of the whole gallery. The retry
    button of the same batch regenerates the prompt when it has no `_`.
  */
  lemma ControlsRoundTrip(galleries: map<int, seq<string>>, u: int, prompt: string,
                          paths: seq<string>, total: nat, i: int, fileExists: string -> bool)
    requires 0 <= i < |paths|
    ensures var c := BatchControls(u, prompt, paths, total)[i];
      && RouteOf(c.addData) == Some(AddRoute)
      && RouteOf(c.retryData) == Some(RetryRoute)
      && (0 <= i < |GalleryOf(galleries, u)| ==>
            var path := GalleryOf(galleries, u)[i];
            AddDecision(galleries, c.addData, fileExists) == if fileExists(path) then Added(u, path) else ImageMissing(path))
      && (Sep !in prompt ==> RetryDecision(c.retryData) == Success(RetryRequest(u, RetryText(prompt))))
  {
    RouteOfEncode(AddRoute, IntToString(u), IntToString(i));
    RouteOfEncode(RetryRoute, IntToString(u), prompt);
    AddDecisionAt(galleries, u, i, fileExists);
    RetryRoundTrip(u, prompt);
  }
}
