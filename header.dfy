/**
 * The site header: the profile picture it shows, where search, the logo and
 * the menu lead, the one-off fetch that fills in a missing profile image,
 * and logout.
 */
module Header {

  import opened Js
  import opened Browser

  /** The picture shown when the user has none. */
  const ProfileIcon := "/profile_icon.png"

  /** The storage keys logout removes. */
  const LoggedOutKeys: set<string> := {"user", "customer_id", "seller_id", "history_id"}

  /** An absolute http or https URL, used as the picture's `src` as it stands. */
  function IsExternalUrl(url: string): (b: bool)
    ensures b ==> |url| >= 7 && url[..4] == "http"
    ensures StartsWith(url, "http://") ==> b
    ensures StartsWith(url, "https://") ==> b
  {
    assert StartsWith(url, "http://") ==> url[..4] == url[..7][..4];
    assert StartsWith(url, "https://") ==> url[..4] == url[..8][..4];
    StartsWith(url, "http://") || StartsWith(url, "https://")
  }

  /**
   * The stored image for the user's role: a customer's `profile_pic`; for a
   * seller without a customer id, `seller_image`, else `profile_pic`; for
   * anyone else, none. Empty values count as none.
   */
  function ImagePath(user: Option<Record>): (r: Option<string>)
    ensures r.Some? ==> r.value != ""
    ensures Truthy(FieldOf(user, "customer_id")) ==> r == OrNull(FieldOf(user, "profile_pic"))
    ensures !Truthy(FieldOf(user, "customer_id")) && Truthy(FieldOf(user, "seller_id")) ==>
              r == OrNull(Or(FieldOf(user, "seller_image"), FieldOf(user, "profile_pic")))
    ensures !Truthy(FieldOf(user, "customer_id")) && !Truthy(FieldOf(user, "seller_id")) ==> r == None
    ensures r.Some? ==> r == FieldOf(user, "profile_pic") || r == FieldOf(user, "seller_image")
  {
    if Truthy(FieldOf(user, "customer_id")) then OrNull(FieldOf(user, "profile_pic"))
    else if Truthy(FieldOf(user, "seller_id")) then
      OrNull(Or(FieldOf(user, "seller_image"), FieldOf(user, "profile_pic")))
    else None
  }

  function DropLeadingSlash(s: string): (r: string)
  {
    if StartsWith(s, "/") then s[1..] else s
  }

  /**
   * `path.replace(/^\/?uploads\/?/, "")`: removes one leading "uploads",
   * with an optional "/" before and after it; anything else is left alone.
   */
  function StripUploadsPrefix(p: string): (r: string)
    ensures |r| <= |p| && r == p[|p| - |r|..]
    ensures !StartsWith(p, "uploads") && !StartsWith(p, "/uploads") ==> r == p
  {
    if StartsWith(p, "/uploads") then DropLeadingSlash(p[8..])
    else if StartsWith(p, "uploads") then DropLeadingSlash(p[7..])
    else p
  }

  /** Exactly one leading `uploads`, with an optional "/" before and after it, is removed. */
  lemma StripUploadsPrefixCases(p: string)
    ensures StartsWith(p, "/uploads/") ==> StripUploadsPrefix(p) == p[9..]
    ensures StartsWith(p, "/uploads") && !StartsWith(p, "/uploads/") ==> StripUploadsPrefix(p) == p[8..]
    ensures StartsWith(p, "uploads/") ==> StripUploadsPrefix(p) == p[8..]
    ensures StartsWith(p, "uploads") && !StartsWith(p, "uploads/") ==> StripUploadsPrefix(p) == p[7..]
  {
    if StartsWith(p, "/uploads/") {
      assert p[0] == '/';
      assert p[..8] == p[..9][..8];
      assert p[8..][..1] == p[..9][8..];
    } else if StartsWith(p, "/uploads") {
      assert p[0] == '/';
      if |p| > 8 {
        assert p[..9] == p[..8] + [p[8]] && p[8..][..1] == [p[8]];
      }
    } else if StartsWith(p, "uploads/") {
      assert p[..7] == p[..8][..7];
      assert p[7..][..1] == p[..8][7..];
      assert p[0] == 'u';
    } else if StartsWith(p, "uploads") {
      assert p[0] == 'u';
      if |p| > 7 {
        assert p[..8] == p[..7] + [p[7]] && p[7..][..1] == [p[7]];
      }
    }
  }

  /** The three spellings of a stored upload strip to the same file name. */
  lemma StripUploadsForms(x: string)
    requires !StartsWith(x, "uploads") && !StartsWith(x, "/")
    ensures StripUploadsPrefix(x) == x
    ensures StripUploadsPrefix("uploads/" + x) == x
    ensures StripUploadsPrefix("/uploads/" + x) == x
  {
    assert |x| >= 8 ==> x[..8][..1] == x[..1];
    assert !StartsWith(x, "/uploads");
    StripsUploadsSlash(x);
    StripsSlashUploadsSlash(x);
  }

  lemma DropsOneSlash(x: string)
    ensures DropLeadingSlash("/" + x) == x
  {
    assert ("/" + x)[..1] == "/" && ("/" + x)[1..] == x;
  }

  lemma StripsUploadsSlash(x: string)
    ensures StripUploadsPrefix("uploads/" + x) == x
  {
    var p := "uploads/" + x;
    assert p[..7] == "uploads" && p[0] == 'u';
    assert p[7..] == "/" + x;
    DropsOneSlash(x);
  }

  lemma StripsSlashUploadsSlash(x: string)
    ensures StripUploadsPrefix("/uploads/" + x) == x
  {
    var p := "/uploads/" + x;
    assert p[..8] == "/uploads";
    assert p[8..] == "/" + x;
    DropsOneSlash(x);
  }

  /** The `src` of the header's profile picture. */
  function ProfileSrc(imagePath: Option<string>, apiUrl: string): (src: string)
    ensures !Truthy(imagePath) ==> src == ProfileIcon
    ensures Truthy(imagePath) && IsExternalUrl(imagePath.value) ==> src == imagePath.value
    ensures Truthy(imagePath) && !IsExternalUrl(imagePath.value) ==>
              src == apiUrl + "/uploads/" + StripUploadsPrefix(imagePath.value)
  {
    if !Truthy(imagePath) then ProfileIcon
    else if IsExternalUrl(imagePath.value) then imagePath.value
    else apiUrl + "/uploads/" + StripUploadsPrefix(imagePath.value)
  }

  /** `x`, `uploads/x` and `/uploads/x` give the same picture. */
  lemma ProfileSrcSameForUploadForms(x: string, apiUrl: string)
    requires x != "" && !StartsWith(x, "uploads") && !StartsWith(x, "/")
    requires !IsExternalUrl(x)
    ensures ProfileSrc(Some("uploads/" + x), apiUrl) == ProfileSrc(Some(x), apiUrl)
    ensures ProfileSrc(Some("/uploads/" + x), apiUrl) == ProfileSrc(Some(x), apiUrl)
    ensures ProfileSrc(Some(x), apiUrl) == apiUrl + "/uploads/" + x
  {
    StripUploadsForms(x);
    NotExternal("uploads/" + x);
    NotExternal("/uploads/" + x);
  }

  lemma NotExternal(s: string)
    requires s != [] && s[0] != 'h'
    ensures !IsExternalUrl(s)
  {
  }

  /** What submitting the search box does: nothing, or call `onSearch` and navigate. */
  datatype SearchOutcome = Ignored | Submitted(onSearchArg: string, target: string)

  /**
   * A blank term does nothing. Otherwise the raw term goes to `onSearch` and
   * the page navigates with the encoded term: a customer's home first, then
   * a seller's, then the public home.
   */
  function SearchSubmit(term: string, user: Option<Record>, encode: string -> string): (o: SearchOutcome)
    ensures o.Ignored? <==> AllWhitespace(term)
    ensures o.Submitted? ==> o.onSearchArg == term
    ensures o.Submitted? && Truthy(FieldOf(user, "customer_id")) ==>
              o.target == "/home/" + FieldOf(user, "customer_id").value + "?q=" + encode(term)
    ensures o.Submitted? && !Truthy(FieldOf(user, "customer_id")) && Truthy(FieldOf(user, "seller_id")) ==>
              o.target == "/seller/home/" + FieldOf(user, "seller_id").value + "?q=" + encode(term)
    ensures o.Submitted? && !Truthy(FieldOf(user, "customer_id")) && !Truthy(FieldOf(user, "seller_id")) ==>
              o.target == "/home?q=" + encode(term)
  {
    TrimEmptyIff(term);
    if Trim(term) == "" then Ignored
    else
      var q := encode(term);
      var customerId := FieldOf(user, "customer_id");
      var sellerId := FieldOf(user, "seller_id");
      var target :=
        if Truthy(customerId) then "/home/" + customerId.value + "?q=" + q
        else if Truthy(sellerId) then "/seller/home/" + sellerId.value + "?q=" + q
        else "/home?q=" + q;
      Submitted(term, target)
  }

  /** The logo prefers the seller home, then the customer home, then the landing page. */
  function LogoTarget(user: Option<Record>): (path: string)
    ensures Truthy(FieldOf(user, "seller_id")) ==> path == "/seller/home/" + FieldOf(user, "seller_id").value
    ensures !Truthy(FieldOf(user, "seller_id")) && Truthy(FieldOf(user, "customer_id")) ==>
              path == "/home/" + FieldOf(user, "customer_id").value
    ensures !Truthy(FieldOf(user, "seller_id")) && !Truthy(FieldOf(user, "customer_id")) ==> path == "/"
  {
    var sellerId := FieldOf(user, "seller_id");
    var customerId := FieldOf(user, "customer_id");
    if Truthy(sellerId) then "/seller/home/" + sellerId.value
    else if Truthy(customerId) then "/home/" + customerId.value
    else "/"
  }

  /** For a user with both ids, search and the logo lead to different homes. */
  lemma SearchAndLogoDisagree(u: Record, term: string, encode: string -> string)
    requires Truthy(Field(u, "customer_id")) && Truthy(Field(u, "seller_id"))
    requires !AllWhitespace(term)
    ensures SearchSubmit(term, Some(u), encode).target == "/home/" + u["customer_id"] + "?q=" + encode(term)
    ensures LogoTarget(Some(u)) == "/seller/home/" + u["seller_id"]
  {
  }

  datatype MenuItem = Profile | Store | Items

  /** The dropdown entries: each needs the id it links with, else it does nothing. */
  function MenuTarget(item: MenuItem, user: Option<Record>): (r: Option<string>)
    ensures r.Some? <==> Truthy(FieldOf(user, if item.Store? then "seller_id" else "customer_id"))
    ensures item.Profile? && r.Some? ==> r.value == "/profile/" + FieldOf(user, "customer_id").value
    ensures item.Store? && r.Some? ==> r.value == "/store/" + FieldOf(user, "seller_id").value
    ensures item.Items? && r.Some? ==> r.value == "/items/" + FieldOf(user, "customer_id").value
  {
    var customerId := FieldOf(user, "customer_id");
    var sellerId := FieldOf(user, "seller_id");
    match item
    case Profile => if Truthy(customerId) then Some("/profile/" + customerId.value) else None
    case Store => if Truthy(sellerId) then Some("/store/" + sellerId.value) else None
    case Items => if Truthy(customerId) then Some("/items/" + customerId.value) else None
  }

  /** The image lookup runs only for a customer or seller with neither image stored. */
  function NeedsImageFetch(u: Record): (b: bool)
    ensures b ==> Truthy(Field(u, "customer_id")) || Truthy(Field(u, "seller_id"))
    ensures b ==> ImagePath(Some(u)) == None
  {
    (Truthy(Field(u, "customer_id")) || Truthy(Field(u, "seller_id")))
    && !Truthy(Field(u, "profile_pic")) && !Truthy(Field(u, "seller_image"))
  }

  /** The query of the image lookup: by customer id when there is one. */
  function ImageQuery(u: Record): (q: string)
    requires NeedsImageFetch(u)
    ensures Truthy(Field(u, "customer_id")) ==> q == "customer_id=" + u["customer_id"]
    ensures !Truthy(Field(u, "customer_id")) ==> q == "seller_id=" + u["seller_id"]
  {
    if Truthy(Field(u, "customer_id")) then "customer_id=" + u["customer_id"]
    else "seller_id=" + u["seller_id"]
  }

  /** The answer of `/api/header/search`, or a lookup that failed. */
  datatype ImageResponse = ImageResponse(status: string, profilePic: Option<string>, sellerImage: Option<string>)
                         | ImageFetchFailed

  predicate Succeeded(resp: ImageResponse)
  {
    resp.ImageResponse? && resp.status == "success"
  }

  /**
   * `updated` is `u` after a successful lookup: `profile_pic` is the
   * response's for a customer when it has one, `seller_image` is the
   * response's seller image, else its profile picture, for a seller when it
   * has either; no other field is added, removed or changed.
   */
  ghost predicate MergedFrom(u: Record, resp: ImageResponse, updated: Record)
    requires Succeeded(resp)
  {
    && updated.Keys <= u.Keys + {"profile_pic", "seller_image"}
    && (forall k :: k in u && k != "profile_pic" && k != "seller_image" ==> k in updated && updated[k] == u[k])
    && Field(updated, "profile_pic") ==
         (if Truthy(Field(u, "customer_id")) && Truthy(resp.profilePic) then resp.profilePic
          else Field(u, "profile_pic"))
    && Field(updated, "seller_image") ==
         (if Truthy(Field(u, "seller_id")) && (Truthy(resp.sellerImage) || Truthy(resp.profilePic))
          then Or(resp.sellerImage, resp.profilePic)
          else Field(u, "seller_image"))
  }

  /** The merge rule leaves no freedom: one record satisfies it. */
  lemma MergedFromUnique(u: Record, resp: ImageResponse, a: Record, b: Record)
    requires Succeeded(resp)
    requires MergedFrom(u, resp, a) && MergedFrom(u, resp, b)
    ensures a == b
  {
    assert forall k :: k in a <==> k in b by {
      forall k ensures k in a <==> k in b {
        if k == "profile_pic" {
          assert Field(a, k) == Field(b, k);
        } else if k == "seller_image" {
          assert Field(a, k) == Field(b, k);
        }
      }
    }
    forall k | k in a ensures a[k] == b[k] {
      if k == "profile_pic" {
        assert Field(a, k) == Field(b, k);
      } else if k == "seller_image" {
        assert Field(a, k) == Field(b, k);
      }
    }
  }

  /**
   * The user record after a lookup: a copy of `u` with the images from the
   * response filled in for the matching role.
   */
  method MergeImages(u: Record, resp: ImageResponse) returns (updated: Record)
    requires Succeeded(resp)
    ensures MergedFrom(u, resp, updated)
  {
    updated := u;
    if Truthy(Field(u, "customer_id")) && Truthy(resp.profilePic) {
      updated := updated["profile_pic" := resp.profilePic.value];
    }
    if Truthy(Field(u, "seller_id")) && (Truthy(resp.sellerImage) || Truthy(resp.profilePic)) {
      updated := updated["seller_image" := Or(resp.sellerImage, resp.profilePic).value];
    }
  }

  /** The header component's user state. */
  class HeaderView {
    var user: Option<Record>

    constructor ()
      ensures user == None
    {
      user := None;
    }

    /**
     * The mount effect: a stored user is parsed (`parse` stands for
     * `JSON.parse`) and shown; the image lookup's query is returned when
     * one is needed.
     */
    method OnMount(storage: LocalStorage, parse: string -> Record) returns (query: Option<string>)
      modifies this
      ensures Truthy(storage.GetItem("user")) ==> user == Some(parse(storage.items["user"]))
      ensures !Truthy(storage.GetItem("user")) ==> user == old(user)
      ensures query.Some? <==> Truthy(storage.GetItem("user")) && NeedsImageFetch(user.value)
      ensures query.Some? ==> query.value == ImageQuery(user.value)
    {
      query := None;
      var stored := storage.GetItem("user");
      if Truthy(stored) {
        var parsed := parse(stored.value);
        user := Some(parsed);
        if NeedsImageFetch(parsed) {
          query := Some(ImageQuery(parsed));
        }
      }
    }

    /**
     * The lookup settling: on success the merged record is shown and written
     * back to storage (`stringify` stands for `JSON.stringify`); on failure
     * nothing changes.
     */
    method OnImageResponse(parsed: Record, resp: ImageResponse, storage: LocalStorage, stringify: Record -> string)
      returns (merged: Option<Record>)
      modifies this, storage
      ensures merged.Some? <==> Succeeded(resp)
      ensures merged.Some? ==> MergedFrom(parsed, resp, merged.value)
      ensures merged.Some? ==> user == merged && storage.items == old(storage.items)["user" := stringify(merged.value)]
      ensures merged.None? ==> user == old(user) && storage.items == old(storage.items)
    {
      merged := None;
      if Succeeded(resp) {
        var updated := MergeImages(parsed, resp);
        merged := Some(updated);
        user := merged;
        storage.SetItem("user", stringify(updated));
      }
    }

    /**
     * Logout: the backend is told only when the user has an id and a role, and
     * whether or not that request is sent or fails, the four session keys are
     * removed and the page goes to `/login`.
     */
    method Logout(storage: LocalStorage) returns (posted: bool, target: string)
      modifies storage
      ensures posted == (Truthy(FieldOf(user, "user_id")) && Truthy(FieldOf(user, "role")))
      ensures storage.items == old(storage.items) - LoggedOutKeys
      ensures target == "/login"
    {
      posted := Truthy(FieldOf(user, "user_id")) && Truthy(FieldOf(user, "role"));
      storage.RemoveItem("user");
      storage.RemoveItem("customer_id");
      storage.RemoveItem("seller_id");
      storage.RemoveItem("history_id");
      target := "/login";
    }
  }
}
