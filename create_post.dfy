/** The decision logic of the post form: the "create a new value" suggestion
    of the game and tag pickers, the tag picker's option list, the game
    picker's error flag, the submit handler and the submit button's
    `disabled` rule. `TagService`, `GameService` and dayjs's `toISOString`
    are function parameters. `PostService.createPost` is not: `HandleSubmit`
    returns the post it would be given. MUI's option filter is not either:
    `FilterOptions` takes the list the filter returned. Lengths are
    JavaScript's, in UTF-16 code units (`JsLength`). */
module CreatePost {
  import opened Common
  import opened Numbers

  /** An autocomplete option, as the API returns games and tags, or the
      suggestion of a new one (`id: null`). `name` may be `null`. */
  datatype Item = Item(id: Option<int>, name: Option<string>)

  /** The `game` the form holds: JavaScript `null`, the empty string the
      picker starts with, or an option object. */
  datatype GameValue = NullGame | EmptyGame | Picked(item: Item)

  /** JavaScript truthiness of a `game` value: objects are truthy. */
  predicate GameTruthy(game: GameValue) { game.Picked? }

  /** Truthiness of a nullable string: `null` and `''` are falsy. */
  predicate TextTruthy(s: Option<string>) { s.Some? && s.value != "" }

  /** `options.some(o => o.name === name)`. */
  function AnyNamed(options: seq<Item>, name: Option<string>): (b: bool)
    ensures b <==> exists i | 0 <= i < |options| :: options[i].name == name
  {
    if options == [] then false
    else options[0].name == name || AnyNamed(options[1..], name)
  }

  // ---------------------------------------------------------------------
  // onFilterOptions (the same in GameSelector and TagsSelector)

  /** `onFilterOptions(options, {inputValue})`, where `filtered` is what
      MUI's `filter(options, params)` returned. */
  function FilterOptions(options: seq<Item>, filtered: seq<Item>, inputValue: string): (r: seq<Item>)
    ensures |r| == |filtered| || |r| == |filtered| + 1
    ensures r[..|filtered|] == filtered
    ensures |r| == |filtered| + 1 <==> inputValue != "" && forall i | 0 <= i < |options| :: options[i].name != Some(inputValue)
    ensures |r| == |filtered| + 1 ==> r[|filtered|] == Item(None, Some(inputValue))
  {
    if inputValue != "" && !AnyNamed(options, Some(inputValue)) then filtered + [Item(None, Some(inputValue))]
    else filtered
  }

  /** Whether a suggestion is made depends on all of `options`, not on which
      of them the filter kept: an exact name match hidden by the filter still
      suppresses it. */
  lemma FilterOptionsIgnoresWhatFilterKept(options: seq<Item>, filtered1: seq<Item>, filtered2: seq<Item>, inputValue: string)
    ensures |FilterOptions(options, filtered1, inputValue)| - |filtered1|
            == |FilterOptions(options, filtered2, inputValue)| - |filtered2|
  {
  }

  // ---------------------------------------------------------------------
  // GameSelector

  /** The game picker's error flag: a truthy name shorter than 3. */
  predicate GameNameTooShort(v: GameValue)
    ensures GameNameTooShort(v) <==> v.Picked? && v.item.name.Some? && 0 < JsLength(v.item.name.value) < 3
  {
    GameTruthy(v) && TextTruthy(v.item.name) && JsLength(v.item.name.value) < 3
  }

  class GameSelector {
    var gameOptions: seq<Item>
    var value: GameValue
    var error: bool

    constructor ()
      ensures gameOptions == [] && value == EmptyGame && !error
    {
      gameOptions, value, error := [], EmptyGame, false;
    }

    /** The options fetched by `GameService.searchGames('')` arrive. */
    method OptionsLoaded(games: seq<Item>)
      modifies this`gameOptions
      ensures gameOptions == games
    {
      gameOptions := games;
    }

    /** `onInputChange(event, newValue)`: stores the value, sets the error
        flag and hands the value to the form, twice (once inside the `try`,
        once after it). */
    method OnInputChange(newValue: GameValue) returns (forwarded: seq<GameValue>)
      modifies this`value, this`error
      ensures value == newValue
      ensures error <==> GameNameTooShort(newValue)
      ensures forwarded == [newValue, newValue]
    {
      value := newValue;
      error := GameNameTooShort(newValue);
      forwarded := [newValue];
      value := newValue;
      forwarded := forwarded + [newValue];
    }
  }

  // ---------------------------------------------------------------------
  // TagsSelector

  /** A value the tag handler would add: a suggestion (`id: null`) whose name
      no current option has. */
  predicate IsNewTag(tagOptions: seq<Item>, v: Item) {
    v.id.None? && !AnyNamed(tagOptions, v.name)
  }

  /** The last value of `newValues` that is a new tag against `tagOptions`. */
  function LastNewTag(tagOptions: seq<Item>, newValues: seq<Item>): (r: Option<Item>)
    ensures r.None? <==> forall j | 0 <= j < |newValues| :: !IsNewTag(tagOptions, newValues[j])
    ensures r.Some? ==> exists k | 0 <= k < |newValues| ::
                          && newValues[k] == r.value
                          && IsNewTag(tagOptions, newValues[k])
                          && forall j | k < j < |newValues| :: !IsNewTag(tagOptions, newValues[j])
  {
    if newValues == [] then None
    else
      var last := newValues[|newValues| - 1];
      if IsNewTag(tagOptions, last) then Some(last)
      else
        var r := LastNewTag(tagOptions, newValues[..|newValues| - 1]);
        assert forall j | 0 <= j < |newValues| - 1 :: newValues[..|newValues| - 1][j] == newValues[j];
        r
  }

  class TagsSelector {
    var tagOptions: seq<Item>
    var value: seq<Item>

    constructor ()
      ensures tagOptions == [] && value == []
    {
      tagOptions, value := [], [];
    }

    /** The options fetched by `TagService.searchTags('')` arrive. */
    method OptionsLoaded(tags: seq<Item>)
      modifies this`tagOptions
      ensures tagOptions == tags
    {
      tagOptions := tags;
    }

    /** `onInputChange(event, newValues)`. Every new tag schedules the state
        update `tagOptions.concat([newValue])` on the options captured when
        the handler started; React keeps the last one scheduled. */
    method OnInputChange(newValues: seq<Item>) returns (forwarded: seq<Item>)
      modifies this`tagOptions, this`value
      ensures value == newValues && forwarded == newValues
      ensures tagOptions == old(tagOptions) + (match LastNewTag(old(tagOptions), newValues)
                                               case None => []
                                               case Some(t) => [t])
    {
      var captured := tagOptions;
      var scheduled: Option<seq<Item>> := None;
      var i := 0;
      while i < |newValues|
        invariant 0 <= i <= |newValues|
        invariant scheduled == match LastNewTag(captured, newValues[..i])
                               case None => None
                               case Some(t) => Some(captured + [t])
      {
        var newValue := newValues[i];
        assert newValues[..i + 1][..i] == newValues[..i];
        if newValue.id.None? {
          if !AnyNamed(captured, newValue.name) {
            scheduled := Some(captured + [newValue]);
          }
        }
        i := i + 1;
      }
      assert newValues[..i] == newValues;
      if scheduled.Some? {
        tagOptions := scheduled.value;
      }
      value := newValues;
      forwarded := newValues;
    }
  }

  /** What one tag change does to the options: the old ones stay as a
      prefix, at most one is added, and an added one is a suggestion whose
      name was not among them. Values with an id, or with a known name, add
      nothing. */
  lemma TagOptionsGrowth(tagOptions: seq<Item>, newValues: seq<Item>)
    ensures var added := match LastNewTag(tagOptions, newValues) case None => [] case Some(t) => [t];
            && |added| <= 1
            && (forall j | 0 <= j < |added| :: added[j].id.None? && !AnyNamed(tagOptions, added[j].name))
            && ((forall j | 0 <= j < |newValues| :: newValues[j].id.Some? || AnyNamed(tagOptions, newValues[j].name))
                  ==> added == [])
  {
  }

  /** Two new tags in one change: only the last is added, since each update
      is computed from the same captured options. */
  lemma TwoNewTagsKeepTheLast()
    ensures LastNewTag([], [Item(None, Some("a")), Item(None, Some("b"))]) == Some(Item(None, Some("b")))
  {
  }

  // ---------------------------------------------------------------------
  // handleSubmit

  /** The form state `handleSubmit` reads. Times are dayjs values (or `null`). */
  datatype Form<Time> = Form(game: GameValue, title: Option<string>, description: string,
                             startTime: Option<Time>, endTime: Option<Time>, tags: seq<Item>)

  /** The post handed to `PostService.createPost`. */
  datatype NewPost = NewPost(title: Option<string>, description: string,
                             startTime: Option<string>, endTime: Option<string>,
                             tagIds: seq<int>, gameId: int)

  /** The services the handler awaits: the id of the tag found or created
      for a name, the id of the game found or created for a title, and
      dayjs's `toISOString`. */
  datatype Services<!Time> = Services(findOrCreateTagByName: Option<string> -> int,
                                     findOrCreateGameByTitle: string -> int,
                                     toISOString: Time -> string)

  /** The guard that ends the submission silently; in effect, it lets
      through exactly a game object whose name has length 3 or more. */
  predicate SubmitGuardRejects(game: GameValue)
    ensures !SubmitGuardRejects(game) <==> game.Picked? && game.item.name.Some? && JsLength(game.item.name.value) >= 3
  {
    || game == EmptyGame
    || game == NullGame
    || game.item.name.None?
    || game.item.name.value == ""
    || JsLength(game.item.name.value) < 3
  }

  /** `game.length` in JavaScript: `0` for `''`, `undefined` (`None`) for
      `null`-safe access on `null` and for an object, which has no length. */
  function GameLength(game: GameValue): Option<int> {
    if game == EmptyGame then Some(0) else None
  }

  /** `a < n` in JavaScript, `undefined < n` being false. */
  predicate JsLess(a: Option<int>, n: int) { a.Some? && a.value < n }

  /** The second check before `createPost`: `game === null || game === '' ||
      game.length < 3`. An object has no `length`, so it rejects exactly the
      values that are not game objects. */
  predicate CreateGuardRejects(game: GameValue)
    ensures CreateGuardRejects(game) <==> !game.Picked?
  {
    game == NullGame || game == EmptyGame || JsLess(GameLength(game), 3)
  }

  /** The picker's error flag and the submit guard agree: a flagged game is
      always rejected, and a game object the picker does not flag is
      rejected only for a `null` or empty name. */
  lemma SubmitGuardMeaning(game: GameValue)
    ensures GameNameTooShort(game) ==> SubmitGuardRejects(game)
    ensures game.Picked? && !GameNameTooShort(game) ==> (SubmitGuardRejects(game) <==> !TextTruthy(game.item.name))
  {
  }



  /** `handleSubmit`: finds or creates every tag, in order, before it looks
      at the game; then either stops (`post == None`) or builds the post
      passed to `createPost`. */
  method HandleSubmit<Time>(form: Form<Time>, services: Services<Time>) returns (tagIds: seq<int>, post: Option<NewPost>)
    ensures |tagIds| == |form.tags|
    ensures forall i | 0 <= i < |tagIds| :: tagIds[i] == services.findOrCreateTagByName(form.tags[i].name)
    ensures post.None? <==> SubmitGuardRejects(form.game)
    ensures post.Some? ==>
              && post.value.tagIds == tagIds
              && post.value.gameId == services.findOrCreateGameByTitle(form.game.item.name.value)
              && post.value.title == form.title && post.value.description == form.description
              && (post.value.startTime.None? <==> form.startTime.None?)
              && (post.value.endTime.None? <==> form.endTime.None?)
              && (form.startTime.Some? ==> post.value.startTime == Some(services.toISOString(form.startTime.value)))
              && (form.endTime.Some? ==> post.value.endTime == Some(services.toISOString(form.endTime.value)))
  {
    tagIds := [];
    var i := 0;
    while i < |form.tags|
      invariant 0 <= i <= |form.tags|
      invariant |tagIds| == i
      invariant forall k | 0 <= k < i :: tagIds[k] == services.findOrCreateTagByName(form.tags[k].name)
    {
      var newTag := services.findOrCreateTagByName(form.tags[i].name);
      tagIds := tagIds + [newTag];
      i := i + 1;
    }

    if SubmitGuardRejects(form.game) {
      return tagIds, None;
    }

    var gameId := services.findOrCreateGameByTitle(form.game.item.name.value);
    var newPost := NewPost(
      form.title,
      form.description,
      if form.startTime.Some? then Some(services.toISOString(form.startTime.value)) else None,
      if form.endTime.Some? then Some(services.toISOString(form.endTime.value)) else None,
      tagIds,
      gameId);

    if CreateGuardRejects(form.game) {
      // never taken: the first guard already let only game objects through
      assert false;
      post := None;
    } else {
      post := Some(newPost);
    }
  }

  // ---------------------------------------------------------------------
  // The submit button

  /** `title?.length`. */
  function TitleLength(title: Option<string>): Option<int> {
    if title.Some? then Some(JsLength(title.value)) else None
  }

  /** The submit button's `disabled` expression, clause by clause with
      JavaScript's `undefined` comparisons; in effect, disabled exactly when
      there is no game object, no title, or a title of length under 3. */
  predicate SubmitDisabled(game: GameValue, title: Option<string>)
    ensures SubmitDisabled(game, title) <==> !game.Picked? || title.None? || JsLength(title.value) < 3
  {
    || !GameTruthy(game)
    || !TextTruthy(title)
    || JsLess(GameLength(game), 3)
    || JsLess(TitleLength(title), 3)
    || GameLength(game) == Some(2)
    || TitleLength(title) == Some(2)
    || TitleLength(title) == Some(1)
    || GameLength(game) == Some(1)
  }

  /** The button does not check the game's name: it can be enabled for a
      game the submit guard then rejects. */
  lemma EnabledButRejected()
    ensures var game := Picked(Item(Some(7), Some("Go")));
            !SubmitDisabled(game, Some("Duo night")) && SubmitGuardRejects(game)
  {
  }

  /** Two characters above U+FFFF have length 4: as a game name they are
      accepted and not flagged, and as a title they enable the button. */
  lemma AstralNamesAccepted()
    ensures var game := Picked(Item(Some(1), Some("\U{1D54F}\U{1D54F}")));
            && !SubmitGuardRejects(game) && !GameNameTooShort(game)
            && !SubmitDisabled(game, Some("\U{1D54F}\U{1D54F}"))
  {
    JsLengthOfAstral();
  }
}
