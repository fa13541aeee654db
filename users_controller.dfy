/** The decisions `UsersController` takes before and after it calls its
    services: whose profile a request is about, the self-scoped profile
    update with its avatar check, and the connected-posts and groups
    listings. The services (`IUserService`, `ISearchService`,
    `IStorageService`) and the `Uri` constructor are parameters. */
module Controllers {
  import opened Common
  import opened Numbers

  /** What an action answers, named after the HTTP status it leads to:
      200 with a body, 401, 404, and 422 for an `UnprocessableException`. */
  datatype ActionResult<T> = Ok(value: T) | Unauthorized | NotFound | Unprocessable(message: string)

  /** The route token that stands for the authenticated caller. */
  const CurrentUserAlias: string := "current"

  // ---------------------------------------------------------------------
  // GET api/users/{userIdString}

  /** The user a profile request is about. `identitySlot` is the user id
      that the authentication middleware put on the request, if any. */
  function ResolveProfileUserId(route: string, identitySlot: Option<string>): (r: ActionResult<Int32>)
    ensures r.Ok? || r.Unauthorized? || r.NotFound?
    ensures r.Unauthorized? ==> route == CurrentUserAlias
    ensures r.NotFound? ==> route != CurrentUserAlias
    ensures route == CurrentUserAlias && r.Ok? ==> identitySlot.Some?
  {
    if route == CurrentUserAlias then
      match TryParseInt32(identitySlot)
      case Some(id) => Ok(id)
      case None => Unauthorized
    else
      match TryParseInt32(Some(route))
      case Some(id) => Ok(id)
      case None => NotFound
  }

  /** The alias resolves to the caller's id, whatever `int` it is, with or
      without white space around it in the identity slot. */
  lemma ResolveCurrentUser(ws1: string, n: Int32, ws2: string)
    requires AllSatisfy(ws1, IsNetWhiteSpace) && AllSatisfy(ws2, IsNetWhiteSpace)
    ensures ResolveProfileUserId(CurrentUserAlias, Some(ws1 + FormatInt(n) + ws2)) == Ok(n)
  {
    TryParseFormatted(ws1, n, ws2);
  }

  /** The alias with no usable identity is a caller problem (401): a missing
      slot, or one that is not an `int`. */
  lemma ResolveCurrentUserUnauthenticated(identitySlot: Option<string>)
    requires identitySlot.None? || TryParseInt32(identitySlot).None?
    ensures ResolveProfileUserId(CurrentUserAlias, identitySlot) == Unauthorized
  {
  }

  /** Any other route is read on its own: the identity slot is never
      consulted. */
  lemma ResolveExplicitIgnoresIdentity(route: string, slot1: Option<string>, slot2: Option<string>)
    requires route != CurrentUserAlias
    ensures ResolveProfileUserId(route, slot1) == ResolveProfileUserId(route, slot2)
  {
  }

  /** An explicit id names that user, negative ids included, with or without
      surrounding white space, and with no identity needed. */
  lemma ResolveExplicitUser(ws1: string, n: Int32, ws2: string, identitySlot: Option<string>)
    requires AllSatisfy(ws1, IsNetWhiteSpace) && AllSatisfy(ws2, IsNetWhiteSpace)
    ensures ResolveProfileUserId(ws1 + FormatInt(n) + ws2, identitySlot) == Ok(n)
  {
    TryParseFormatted(ws1, n, ws2);
  }

  /** A route token that is neither the alias nor an `int` does not name any
      user (404), never 401. */
  lemma ResolveMalformedRoute(route: string, identitySlot: Option<string>)
    requires route != CurrentUserAlias && TryParseInt32(Some(route)).None?
    ensures ResolveProfileUserId(route, identitySlot) == NotFound
  {
  }

  /** An id in text beyond the `int` range is not found. */
  lemma ResolveOutOfRangeRoute(n: int, identitySlot: Option<string>)
    requires n < MinInt32 || MaxInt32 < n
    ensures ResolveProfileUserId(FormatInt(n), identitySlot) == NotFound
  {
    TryParseRejectsOutOfRange(n);
    var f := FormatInt(n);
    assert f[0] == '-' || IsDigit(f[0]);
    assert f != CurrentUserAlias by {
      assert CurrentUserAlias[0] == 'c';
    }
  }

  /** `GetUserProfile`: the resolved user's profile, or 404 when the user
      service has none. `profileOf` is `IUserService.GetUserProfile`. */
  function GetUserProfile<P>(route: string, identitySlot: Option<string>, profileOf: Int32 -> Option<P>): (r: ActionResult<P>)
    ensures r.Unauthorized? <==> ResolveProfileUserId(route, identitySlot).Unauthorized?
    ensures r.Ok? <==> (ResolveProfileUserId(route, identitySlot).Ok?
                        && profileOf(ResolveProfileUserId(route, identitySlot).value).Some?)
    ensures r.Ok? ==> r.value == profileOf(ResolveProfileUserId(route, identitySlot).value).value
    ensures !r.Unprocessable?
  {
    match ResolveProfileUserId(route, identitySlot)
    case Ok(id) =>
      (match profileOf(id)
       case None => NotFound
       case Some(profile) => Ok(profile))
    case Unauthorized => Unauthorized
    case _ => NotFound
  }

  /** `GET api/users/current` for an authenticated caller answers exactly
      what the user service holds for that caller. */
  lemma GetCurrentUserProfile<P>(n: Int32, profileOf: Int32 -> Option<P>)
    ensures GetUserProfile(CurrentUserAlias, Some(FormatInt(n)), profileOf)
            == if profileOf(n).Some? then Ok(profileOf(n).value) else NotFound
  {
    TryParseFormatInt(n);
  }

  // ---------------------------------------------------------------------
  // PATCH api/users/current

  /** The part of a `UserProfile` payload the controller looks at: its id and
      avatar URL. `fields` holds every other property, by name. */
  datatype ProfileChanges = ProfileChanges(id: Int32, pfpUrl: Option<string>, fields: map<string, string>)

  /** The `UserProfile` body of a PATCH request, bound by the framework and
      then changed in place by the controller. */
  class UserProfile {
    var Id: Int32
    var PfpUrl: Option<string>
    var Fields: map<string, string>

    constructor (id: Int32, pfpUrl: Option<string>, fields: map<string, string>)
      ensures Id == id && PfpUrl == pfpUrl && Fields == fields
    {
      Id, PfpUrl, Fields := id, pfpUrl, fields;
    }

    function Snapshot(): ProfileChanges
      reads this
    {
      ProfileChanges(Id, PfpUrl, Fields)
    }
  }

  /** A call into a service whose occurrence matters to the guard. */
  datatype ServiceCall =
    | IsInStorage(uri: string)
    | UpdateUserProfile(payload: ProfileChanges)

  /** What a handler answers and the service calls it made, in order. */
  datatype Handled<T> = Handled(result: ActionResult<T>, calls: seq<ServiceCall>)

  const InvalidAvatarFormat: string := "Invalid avatar url format."
  const AvatarNotInStorage: string := "Invalid profile picture. The image must be uploaded to our storage system"

  /** `UpdateProfile` on values: the answer and the calls of a PATCH with
      body `changes`. `uriParses` says whether `new Uri(url)` succeeds;
      `isInStorage` is `IStorageService.IsInStorageAsync`; `update` is
      `IUserService.UpdateUserProfile`. */
  function UpdateProfileSpec<P>(identitySlot: Option<string>, changes: ProfileChanges,
                                uriParses: string -> bool, isInStorage: string -> bool,
                                update: ProfileChanges -> P): (h: Handled<P>)
    // no usable identity: 401 and no call at all
    ensures TryParseInt32(identitySlot).None? <==> h.result.Unauthorized?
    ensures h.result.Unauthorized? ==> h.calls == []
    // the update only ever receives the payload with the caller's id, the rest as sent
    ensures forall i | 0 <= i < |h.calls| && h.calls[i].UpdateUserProfile? ::
              h.calls[i].payload == changes.(id := TryParseInt32(identitySlot).value)
    // the update, if made, comes last, after at most one storage probe
    ensures |h.calls| <= 2
    ensures forall i | 0 <= i < |h.calls| - 1 :: h.calls[i].IsInStorage?
    // the storage probe is only ever asked about the avatar URL, and only for a well-formed one
    ensures forall i | 0 <= i < |h.calls| && h.calls[i].IsInStorage? ::
              changes.pfpUrl == Some(h.calls[i].uri) && uriParses(h.calls[i].uri)
    // 422 exactly for a malformed avatar URL or one outside storage, and then no update
    ensures h.result.Unprocessable? <==>
              TryParseInt32(identitySlot).Some? && changes.pfpUrl.Some?
              && (!uriParses(changes.pfpUrl.value) || !isInStorage(changes.pfpUrl.value))
    ensures h.result.Unprocessable? ==> forall i | 0 <= i < |h.calls| :: !h.calls[i].UpdateUserProfile?
    // the two 422 messages: a malformed URL, and a well-formed one outside storage
    ensures h.result == Unprocessable(InvalidAvatarFormat) <==>
              TryParseInt32(identitySlot).Some? && changes.pfpUrl.Some? && !uriParses(changes.pfpUrl.value)
    ensures h.result == Unprocessable(AvatarNotInStorage) <==>
              TryParseInt32(identitySlot).Some? && changes.pfpUrl.Some?
              && uriParses(changes.pfpUrl.value) && !isInStorage(changes.pfpUrl.value)
    // otherwise 200 with what the update returned
    ensures h.result.Ok? <==> (|h.calls| > 0 && h.calls[|h.calls| - 1].UpdateUserProfile?)
    ensures h.result.Ok? ==> h.result.value == update(changes.(id := TryParseInt32(identitySlot).value))
    ensures !h.result.NotFound?
  {
    match TryParseInt32(identitySlot)
    case None => Handled(Unauthorized, [])
    case Some(userId) =>
      var payload := changes.(id := userId);
      match changes.pfpUrl
      case None => Handled(Ok(update(payload)), [UpdateUserProfile(payload)])
      case Some(url) =>
        if !uriParses(url) then Handled(Unprocessable(InvalidAvatarFormat), [])
        else if !isInStorage(url) then Handled(Unprocessable(AvatarNotInStorage), [IsInStorage(url)])
        else Handled(Ok(update(payload)), [IsInStorage(url), UpdateUserProfile(payload)])
  }

  /** With no avatar URL the storage probe is never asked, and the update
      goes through with the caller's id. */
  lemma UpdateWithoutAvatar<P>(n: Int32, changes: ProfileChanges, uriParses: string -> bool,
                               isInStorage: string -> bool, update: ProfileChanges -> P)
    requires changes.pfpUrl.None?
    ensures UpdateProfileSpec(Some(FormatInt(n)), changes, uriParses, isInStorage, update)
            == Handled(Ok(update(changes.(id := n))), [UpdateUserProfile(changes.(id := n))])
  {
    TryParseFormatInt(n);
  }

  /** A well-formed managed avatar is accepted iff storage holds it. */
  lemma UpdateAvatarAcceptedIffStored<P>(n: Int32, changes: ProfileChanges, uriParses: string -> bool,
                                         isInStorage: string -> bool, update: ProfileChanges -> P)
    requires changes.pfpUrl.Some? && uriParses(changes.pfpUrl.value)
    ensures UpdateProfileSpec(Some(FormatInt(n)), changes, uriParses, isInStorage, update).result.Ok?
            <==> isInStorage(changes.pfpUrl.value)
  {
    TryParseFormatInt(n);
  }

  /** `UpdateProfile`: resolves the caller, overwrites the payload's `Id` in
      place (before the avatar check, so also on a 422), checks the avatar,
      then forwards the payload to the update. */
  method UpdateProfile<P>(identitySlot: Option<string>, profileChanges: UserProfile,
                          uriParses: string -> bool, isInStorage: string -> bool,
                          update: ProfileChanges -> P)
    returns (result: ActionResult<P>, calls: seq<ServiceCall>)
    modifies profileChanges`Id
    ensures Handled(result, calls)
            == UpdateProfileSpec(identitySlot, old(profileChanges.Snapshot()), uriParses, isInStorage, update)
    ensures TryParseInt32(identitySlot).Some? ==> profileChanges.Id == TryParseInt32(identitySlot).value
    ensures TryParseInt32(identitySlot).None? ==> profileChanges.Id == old(profileChanges.Id)
  {
    var userId := TryParseInt32(identitySlot);
    if userId.None? {
      return Unauthorized, [];
    }
    profileChanges.Id := userId.value;
    calls := [];
    if profileChanges.PfpUrl.Some? {
      var url := profileChanges.PfpUrl.value;
      if !uriParses(url) {
        return Unprocessable(InvalidAvatarFormat), calls;
      }
      calls := calls + [IsInStorage(url)];
      if !isInStorage(url) {
        return Unprocessable(AvatarNotInStorage), calls;
      }
    }
    var payload := profileChanges.Snapshot();
    calls := calls + [UpdateUserProfile(payload)];
    result := Ok(update(payload));
  }

  // ---------------------------------------------------------------------
  // GET api/users/current/connected/posts

  /** A post search as `ToPostQuery` builds it: the user filter and every
      other criterion, by name. */
  datatype PostQuery = PostQuery(userId: Option<Int32>, criteria: map<string, string>)

  /** `post.ToDto(hasJoined)`: the post's fields and the joined flag. */
  datatype PostResponse<Post> = PostResponse(post: Post, hasJoined: bool)

  /** The 200 answer: the body and the `X-total-count` header value. */
  datatype ConnectedPosts<Post> = ConnectedPosts(posts: seq<PostResponse<Post>>, totalCountHeader: string)

  /** `GetUsersAssociatedPosts`. `authorizedUser` is what
      `GetAuthorizedUser` found (its `UserId`); `searchPosts` is
      `ISearchService.SearchPosts`, returning a page of posts and the total
      count. `searched` is the query the search was run with. */
  method GetUsersAssociatedPosts<Post>(authorizedUser: Option<Int32>, query: PostQuery,
                                       searchPosts: PostQuery -> (seq<Post>, Int32))
    returns (result: ActionResult<ConnectedPosts<Post>>, searched: Option<PostQuery>)
    ensures authorizedUser.None? ==> result.Unauthorized? && searched.None?
    ensures authorizedUser.Some? ==> result.Ok? && searched == Some(query.(userId := authorizedUser))
    ensures result.Ok? ==>
              var found := searchPosts(searched.value).0;
              && |result.value.posts| == |found|
              && forall i | 0 <= i < |found| :: result.value.posts[i] == PostResponse(found[i], true)
    ensures result.Ok? ==>
              && result.value.totalCountHeader == FormatInt(searchPosts(searched.value).1)
              && TryParseInt32(Some(result.value.totalCountHeader)) == Some(searchPosts(searched.value).1)
  {
    if authorizedUser.None? {
      return Unauthorized, None;
    }
    var q := query.(userId := authorizedUser);
    var (posts, totalResults) := searchPosts(q);
    var postDtos: seq<PostResponse<Post>> := [];
    var i := 0;
    while i < |posts|
      invariant 0 <= i <= |posts|
      invariant |postDtos| == i
      invariant forall k | 0 <= k < i :: postDtos[k] == PostResponse(posts[k], true)
    {
      postDtos := postDtos + [PostResponse(posts[i], true)];
      i := i + 1;
    }
    TryParseFormatInt(totalResults);
    result := Ok(ConnectedPosts(postDtos, FormatInt(totalResults)));
    searched := Some(q);
  }

  // ---------------------------------------------------------------------
  // GET api/users/current/connected/groups

  const DefaultGroupsLimit: Int32 := 10
  const DefaultGroupsOffset: Int32 := 0

  /** `GetUsersGroups`: the page of the caller's groups that
      `IUserService.GetUsersGroups(userId, limit, offset)` returns, already
      turned into simple DTOs. Absent query parameters take their defaults. */
  function GetUsersGroups<G>(authorizedUser: Option<Int32>, limit: Option<Int32>, offset: Option<Int32>,
                             usersGroups: (Int32, Int32, Int32) -> seq<G>): (r: ActionResult<seq<G>>)
    ensures r.Unauthorized? <==> authorizedUser.None?
    ensures r.Ok? <==> authorizedUser.Some?
    ensures r.Ok? ==> r.value == usersGroups(authorizedUser.value,
                                             if limit.Some? then limit.value else 10,
                                             if offset.Some? then offset.value else 0)
  {
    match authorizedUser
    case None => Unauthorized
    case Some(userId) => Ok(usersGroups(userId, limit.GetOr(DefaultGroupsLimit), offset.GetOr(DefaultGroupsOffset)))
  }
}
