/**
 * The decisions of the WDS_Change_Comment_Author plugin: which user a
 * request selects, which comment-author fields that user overrides, and the
 * row update that forces the user association after an edit; plus the class
 * holding the plugin's two request-scoped caches.
 *
 * WordPress itself is not modelled. `$_POST` is an immutable `Post` record,
 * `has_permission()` a boolean, WordPress's `get_userdata( $id )` a lookup in
 * a map of users, `get_comment()` an input row, the user query an input
 * sequence, and `$wpdb->update` a returned `Update` value.
 */
module CommentAuthor {

  import opened Wrappers
  import Php
  import opened UserOptions

  /** A PHP value as it appears in comment data and in a comment row. */
  datatype Value = Int(i: int) | Str(s: string) | Null

  /** A WP_User as get_userdata returns it, reduced to the properties the plugin reads. */
  datatype User = User(id: Option<int>, userLogin: string, userEmail: string, userUrl: string)

  /** The user properties the field filters copy (`$userdata->{$param}`). */
  datatype Param = ID | UserLogin | UserEmail | UserUrl

  function Property(u: User, p: Param): Value
  {
    match p
    case ID => if u.id.Some? then Int(u.id.value) else Null
    case UserLogin => Str(u.userLogin)
    case UserEmail => Str(u.userEmail)
    case UserUrl => Str(u.userUrl)
  }

  /** The two posted form fields the resolver reads; each is absent or a string. */
  datatype Post = Post(userID: Option<string>, commentAuthorSelection: Option<string>)

  /**
   * What one request offers the plugin: the posted fields, the answer of the
   * permission check, and the users WordPress can look up by ID.
   */
  datatype Request = Request(post: Post, canEdit: bool, users: map<int, User>)

  /** WordPress's `get_userdata( $id )`: the user with that ID, or false. */
  function LookupUser(users: map<int, User>, id: int): Option<User>
  {
    if id in users then Some(users[id]) else None
  }

  /** `comment_author_selection` is set and truthy. */
  predicate Selected(post: Post)
  {
    post.commentAuthorSelection.Some? && Php.IsTruthy(post.commentAuthorSelection.value)
  }

  /**
   * The outcome of one `get_userdata()` call: the user returned (None for
   * false), the new value of the `user_data` cache, and the ID passed to
   * WordPress's `get_userdata` if that lookup was made.
   */
  datatype Resolution = Resolution(user: Option<User>, cache: Option<User>, lookedUp: Option<int>)

  /** The plugin's `get_userdata()` from the cache's value before the call. */
  function Resolve(req: Request, cache: Option<User>): (r: Resolution)
    // A posted user_ID is always looked up by its (int) cast, whatever the permission and the cache.
    ensures req.post.userID.Some? ==> r.lookedUp == Some(Php.IntCast(req.post.userID.value))
    // Without user_ID, nothing is selected unless the selection is truthy and permission is granted.
    ensures req.post.userID.None? && !(Selected(req.post) && req.canEdit) ==> r.user.None? && r.lookedUp.None?
    // On the selection path a cached user is returned and no lookup is made ...
    ensures req.post.userID.None? && Selected(req.post) && req.canEdit && cache.Some? ==>
              r.user == cache && r.lookedUp.None?
    // ... and with the cache empty the selection is looked up by its absint.
    ensures req.post.userID.None? && Selected(req.post) && req.canEdit && cache.None? ==>
              r.lookedUp == Some(Php.AbsInt(req.post.commentAuthorSelection.value))
    // Every lookup's result, false included, is what is returned and what is cached.
    ensures r.lookedUp.Some? ==> r.user == LookupUser(req.users, r.lookedUp.value) && r.cache == r.user
    // Without a lookup the cache is left as it was.
    ensures r.lookedUp.None? ==> r.cache == cache
  {
    if req.post.userID.Some? then
      var userid := Php.IntCast(req.post.userID.value);
      var found := LookupUser(req.users, userid);
      Resolution(found, found, Some(userid))
    else if req.post.commentAuthorSelection.None? || !Php.IsTruthy(req.post.commentAuthorSelection.value) then
      Resolution(None, cache, None)
    else if !req.canEdit then
      Resolution(None, cache, None)
    else if cache.Some? then
      Resolution(cache, cache, None)
    else
      var id := Php.AbsInt(req.post.commentAuthorSelection.value);
      var found := LookupUser(req.users, id);
      Resolution(found, found, Some(id))
  }

  /** `false !== $userdata && isset( $userdata->ID )`. */
  predicate Usable(user: Option<User>)
  {
    user.Some? && user.value.id.Some?
  }

  /** `set_comment_author_param` once the user is resolved. */
  function Override(value: Value, p: Param, user: Option<User>): (r: Value)
    ensures Usable(user) ==> r == Property(user.value, p)
    ensures !Usable(user) ==> r == value
  {
    if Usable(user) then Property(user.value, p) else value
  }

  /** The comment-data keys the front-end filter sets, with the user property each takes. */
  const IdentityKeys: map<string, Param> :=
    map["user_ID" := ID, "comment_author" := UserLogin,
        "comment_author_email" := UserEmail, "comment_author_url" := UserUrl]

  /** `frontend_set_commentor_for_comment` once the user is resolved. */
  function FrontendCommentData(data: map<string, Value>, user: Option<User>): (r: map<string, Value>)
    ensures !Usable(user) ==> r == data
    ensures Usable(user) ==> r.Keys == data.Keys + IdentityKeys.Keys
    ensures Usable(user) ==> forall k :: k in IdentityKeys ==> r[k] == Property(user.value, IdentityKeys[k])
    ensures forall k :: k in data && k !in IdentityKeys ==> k in r && r[k] == data[k]
  {
    if Usable(user) then
      var u := user.value;
      data["user_ID" := Int(u.id.value)]
          ["comment_author" := Str(u.userLogin)]
          ["comment_author_email" := Str(u.userEmail)]
          ["comment_author_url" := Str(u.userUrl)]
    else
      data
  }

  /** The comment-row columns the post-save corrector copies into its update. */
  const SliceKeys: seq<string> :=
    ["comment_content", "comment_author", "comment_author_email", "comment_approved", "comment_karma",
     "comment_author_url", "comment_date", "comment_date_gmt", "comment_parent"]

  /**
   * WordPress's `wp_array_slice_assoc( $row, $keys )`: the listed keys that
   * are set (present and not null) in the row; a missing row gives none.
   */
  function SliceAssoc(row: Option<map<string, Value>>, keys: seq<string>): map<string, Value>
  {
    if row.None? then map[] else map k | k in keys && k in row.value && row.value[k] != Null :: row.value[k]
  }

  /** `$wpdb->update( $wpdb->comments, $data, [ 'comment_ID' => $commentID ] )`. */
  datatype Update = Update(data: map<string, Value>, commentID: int)

  /** The write `set_commentor_id_for_sure` issues once the user is resolved, if any. */
  function PostSavePayload(commentID: int, row: Option<map<string, Value>>, user: Option<User>): (r: Option<Update>)
    ensures r.Some? <==> Usable(user)
    ensures r.Some? ==> r.value.commentID == commentID
    ensures r.Some? ==> "user_id" in r.value.data && r.value.data["user_id"] == Int(user.value.id.value)
    ensures r.Some? ==> forall k :: (k in r.value.data && k != "user_id") <==>
                                     (k in SliceKeys && row.Some? && k in row.value && row.value[k] != Null)
    ensures r.Some? ==> forall k :: k in r.value.data && k != "user_id" ==>
                                     row.Some? && k in row.value && r.value.data[k] == row.value[k]
  {
    if !Usable(user) then None
    else
      var data := SliceAssoc(row, SliceKeys);
      Some(Update(data["user_id" := Int(user.value.id.value)], commentID))
  }

  /** The plugin object: its two request-scoped caches and the hooks that use them. */
  class ChangeCommentAuthor {

    /** `$this->user_data`: the last looked-up user, None standing for false. */
    var userData: Option<User>
    /** `$this->user_options`: the memoized options table. */
    var userOptions: seq<Entry>
    /** How many times WordPress's get_userdata has been called. */
    ghost var lookups: nat
    /** How many times the user query has been run. */
    ghost var queries: nat

    /** The options cache is a PHP array sorted by label. */
    ghost predicate Valid()
      reads this
    {
      Distinct(userOptions) && Sorted(userOptions)
    }

    constructor ()
      ensures Valid()
      ensures userData.None? && userOptions == [] && lookups == 0 && queries == 0
    {
      userData := None;
      userOptions := [];
      lookups, queries := 0, 0;
    }

    /** `get_userdata()`: resolve the posted user, updating the cache as Resolve says. */
    method GetUserdata(req: Request) returns (u: Option<User>)
      modifies this`userData, this`lookups
      ensures u == Resolve(req, old(userData)).user
      ensures userData == Resolve(req, old(userData)).cache
      ensures lookups == old(lookups) + if Resolve(req, old(userData)).lookedUp.Some? then 1 else 0
    {
      if req.post.userID.Some? {
        var userid := Php.IntCast(req.post.userID.value);
        userData := LookupUser(req.users, userid);
        lookups := lookups + 1;
        return userData;
      }
      if req.post.commentAuthorSelection.None? || !Php.IsTruthy(req.post.commentAuthorSelection.value) {
        return None;
      }
      if !req.canEdit {
        return None;
      }
      if userData.Some? {
        return userData;
      }
      userData := LookupUser(req.users, Php.AbsInt(req.post.commentAuthorSelection.value));
      lookups := lookups + 1;
      return userData;
    }

    /** `set_comment_author_param( $value, $param )`. */
    method SetCommentAuthorParam(value: Value, p: Param, req: Request) returns (r: Value)
      modifies this`userData, this`lookups
      ensures r == Override(value, p, Resolve(req, old(userData)).user)
      ensures userData == Resolve(req, old(userData)).cache
      ensures lookups == old(lookups) + if Resolve(req, old(userData)).lookedUp.Some? then 1 else 0
    {
      var user := GetUserdata(req);
      r := value;
      if Usable(user) {
        r := Property(user.value, p);
      }
    }

    /** The `pre_user_id` filter. */
    method SetCommentorId(userId: Value, req: Request) returns (r: Value)
      modifies this`userData, this`lookups
      ensures r == Override(userId, ID, Resolve(req, old(userData)).user)
      ensures userData == Resolve(req, old(userData)).cache
      ensures lookups == old(lookups) + if Resolve(req, old(userData)).lookedUp.Some? then 1 else 0
    {
      r := SetCommentAuthorParam(userId, ID, req);
    }

    /** The `pre_comment_author_name` filter. */
    method SetCommentAuthorName(authorName: Value, req: Request) returns (r: Value)
      modifies this`userData, this`lookups
      ensures r == Override(authorName, UserLogin, Resolve(req, old(userData)).user)
      ensures userData == Resolve(req, old(userData)).cache
      ensures lookups == old(lookups) + if Resolve(req, old(userData)).lookedUp.Some? then 1 else 0
    {
      r := SetCommentAuthorParam(authorName, UserLogin, req);
    }

    /** The `pre_comment_author_email` filter. */
    method SetCommentAuthorEmail(userEmail: Value, req: Request) returns (r: Value)
      modifies this`userData, this`lookups
      ensures r == Override(userEmail, UserEmail, Resolve(req, old(userData)).user)
      ensures userData == Resolve(req, old(userData)).cache
      ensures lookups == old(lookups) + if Resolve(req, old(userData)).lookedUp.Some? then 1 else 0
    {
      r := SetCommentAuthorParam(userEmail, UserEmail, req);
    }

    /** The `pre_comment_author_url` filter. */
    method SetCommentAuthorUrl(userUrl: Value, req: Request) returns (r: Value)
      modifies this`userData, this`lookups
      ensures r == Override(userUrl, UserUrl, Resolve(req, old(userData)).user)
      ensures userData == Resolve(req, old(userData)).cache
      ensures lookups == old(lookups) + if Resolve(req, old(userData)).lookedUp.Some? then 1 else 0
    {
      r := SetCommentAuthorParam(userUrl, UserUrl, req);
    }

    /** The `preprocess_comment` filter. */
    method FrontendSetCommentorForComment(commentdata: map<string, Value>, req: Request)
      returns (r: map<string, Value>)
      modifies this`userData, this`lookups
      ensures r == FrontendCommentData(commentdata, Resolve(req, old(userData)).user)
      ensures userData == Resolve(req, old(userData)).cache
      ensures lookups == old(lookups) + if Resolve(req, old(userData)).lookedUp.Some? then 1 else 0
    {
      var user := GetUserdata(req);
      r := commentdata;
      if Usable(user) {
        r := r["user_ID" := Int(user.value.id.value)];
        r := r["comment_author" := Str(user.value.userLogin)];
        r := r["comment_author_email" := Str(user.value.userEmail)];
        r := r["comment_author_url" := Str(user.value.userUrl)];
      }
    }

    /**
     * The `edit_comment` action: the update it would send to the comments
     * table, given the row `get_comment` returns for `commentID`.
     */
    method SetCommentorIdForSure(commentID: int, row: Option<map<string, Value>>, req: Request)
      returns (update: Option<Update>)
      modifies this`userData, this`lookups
      ensures update == PostSavePayload(commentID, row, Resolve(req, old(userData)).user)
      ensures userData == Resolve(req, old(userData)).cache
      ensures lookups == old(lookups) + if Resolve(req, old(userData)).lookedUp.Some? then 1 else 0
    {
      var user := GetUserdata(req);
      if !Usable(user) {
        return None;
      }
      var data := SliceAssoc(row, SliceKeys);
      data := data["user_id" := Int(user.value.id.value)];
      update := Some(Update(data, commentID));
    }

    /**
     * `get_user_options()`, given what the user query would return: a
     * non-empty cached table is returned without querying; otherwise the
     * query runs, and its results are folded into the cache and sorted.
     */
    method GetUserOptions(results: seq<QueryUser>) returns (t: seq<Entry>)
      requires Valid()
      modifies this`userOptions, this`queries
      ensures Valid()
      ensures old(userOptions) != [] ==> t == userOptions == old(userOptions) && queries == old(queries)
      ensures old(userOptions) == [] ==> queries == old(queries) + 1 && t == userOptions == ASort(BuildOptions(results))
      ensures old(userOptions) == [] && results == [] ==> t == [] && userOptions == []
    {
      if userOptions != [] {
        return userOptions;
      }
      queries := queries + 1;
      if results == [] {
        return [];
      }
      var i := 0;
      while i < |results|
        invariant 0 <= i <= |results|
        invariant userOptions == BuildOptions(results[..i])
        invariant queries == old(queries) + 1
      {
        var user := results[i];
        if user.id.Some? && user.data.Some? {
          userOptions := Put(userOptions, user.id.value, Label(user.data.value));
        }
        assert results[..i + 1][..i] == results[..i];
        i := i + 1;
      }
      assert results[..i] == results;
      userOptions := ASort(userOptions);
      OptionsTable(results);
      return userOptions;
    }
  }

  /**
   * Within one request a second resolution returns the same user and leaves
   * the same cache; on the selection path a found user is not looked up
   * again, while a failed lookup (false is never reused) is repeated.
   */
  lemma ResolveIsStable(req: Request, cache: Option<User>)
    ensures Resolve(req, Resolve(req, cache).cache).user == Resolve(req, cache).user
    ensures Resolve(req, Resolve(req, cache).cache).cache == Resolve(req, cache).cache
    ensures req.post.userID.None? && Resolve(req, cache).user.Some? ==>
              Resolve(req, Resolve(req, cache).cache).lookedUp.None?
    ensures Resolve(req, cache).user.None? ==>
              Resolve(req, Resolve(req, cache).cache).lookedUp == Resolve(req, cache).lookedUp
  {
  }

  /**
   * One comment submission as WordPress runs it on a fresh plugin object:
   * the user-id filter, then the author-name filter. On the selection path
   * both take the selected user's profile, and WordPress's get_userdata is
   * called once between them.
   */
  method SubmitAsSelectedUser(req: Request, userId: Value, authorName: Value) returns (id: Value, name: Value, ghost calls: nat)
    requires req.post.userID.None? && req.canEdit && Selected(req.post)
    requires Php.AbsInt(req.post.commentAuthorSelection.value) in req.users
    ensures var u := req.users[Php.AbsInt(req.post.commentAuthorSelection.value)];
            id == Override(userId, ID, Some(u)) && name == Override(authorName, UserLogin, Some(u))
    ensures calls == 1
  {
    var plugin := new ChangeCommentAuthor();
    id := plugin.SetCommentorId(userId, req);
    name := plugin.SetCommentAuthorName(authorName, req);
    calls := plugin.lookups;
  }

  /** The cache only ever holds users WordPress returned. */
  ghost predicate FromUsers(u: Option<User>, users: map<int, User>)
  {
    u.Some? ==> u.value in users.Values
  }

  lemma ResolveKeepsCacheFromUsers(req: Request, cache: Option<User>)
    requires FromUsers(cache, req.users)
    ensures FromUsers(Resolve(req, cache).cache, req.users)
    ensures FromUsers(Resolve(req, cache).user, req.users)
  {
  }

  /** A posted user_ID decides alone: neither permission nor the cache matters. */
  lemma UserIdIgnoresPermissionAndCache(post: Post, users: map<int, User>, c1: Option<User>, c2: Option<User>)
    requires post.userID.Some?
    ensures Resolve(Request(post, false, users), c1) == Resolve(Request(post, true, users), c2)
  {
  }

  /**
   * Without a posted user_ID, a request lacking permission or a truthy
   * selection overrides nothing: every field filter and the front-end filter
   * pass their input through, and no update is written.
   */
  lemma NoSelectionNoOverride(req: Request, cache: Option<User>, value: Value, p: Param,
                              data: map<string, Value>, commentID: int, row: Option<map<string, Value>>)
    requires req.post.userID.None? && !(req.canEdit && Selected(req.post))
    ensures Override(value, p, Resolve(req, cache).user) == value
    ensures FrontendCommentData(data, Resolve(req, cache).user) == data
    ensures PostSavePayload(commentID, row, Resolve(req, cache).user).None?
    ensures Resolve(req, cache).cache == cache
  {
  }

  /**
   * With permission and a truthy selection naming a user (and nothing cached),
   * all four comment-identity fields take that user's profile.
   */
  lemma SelectionOverridesAllFields(req: Request, value: Value, p: Param, data: map<string, Value>)
    requires req.post.userID.None? && req.canEdit && Selected(req.post)
    requires Php.AbsInt(req.post.commentAuthorSelection.value) in req.users
    requires req.users[Php.AbsInt(req.post.commentAuthorSelection.value)].id.Some?
    ensures var u := req.users[Php.AbsInt(req.post.commentAuthorSelection.value)];
            && Override(value, p, Resolve(req, None).user) == Property(u, p)
            && forall k :: k in IdentityKeys ==>
                 FrontendCommentData(data, Resolve(req, None).user)[k] == Property(u, IdentityKeys[k])
  {
  }

  /** The front-end filter sets each identity key to what that key's field filter returns. */
  lemma FrontendAgreesWithFieldFilters(data: map<string, Value>, user: Option<User>)
    ensures forall k :: k in IdentityKeys && k in data ==>
              k in FrontendCommentData(data, user) &&
              FrontendCommentData(data, user)[k] == Override(data[k], IdentityKeys[k], user)
  {
  }
}
