/**
 * The seller's store-profile editor: loading the profile, the picture it
 * previews, the size gate on a new picture, and the `FormData` it sends.
 */
module SellerEditProfile {

  import opened Js
  import opened Browser

  /** The backend the page talks to. */
  const Host := "http://localhost:3000"

  /** The largest picture accepted: 5 MB. */
  const MaxImageBytes: nat := 5 * 1024 * 1024

  const MissingIdMessage := "Missing seller ID"
  const FetchFallback := "Failed to fetch data"
  const NetworkFallback := "Network error"
  const UpdatedFallback := "Profile updated successfully!"
  const UpdateFallback := "Update failed"
  const RequiredAlert := "Business name required"
  const TooLargeAlert := "Image must be <5MB"

  /** The URL of a stored seller image: the host before a `/uploads/...` path, else the host and `/uploads/`. */
  function SellerImageUrl(path: string): (url: string)
    ensures StartsWith(url, Host + "/uploads/")
    ensures StartsWith(path, "/uploads/") ==> url == Host + path
    ensures !StartsWith(path, "/uploads/") ==> url[|Host + "/uploads/"|..] == path
  {
    if StartsWith(path, "/uploads/") then
      assert Host + path == (Host + "/uploads/") + path[9..] by { assert path == "/uploads/" + path[9..]; }
      StartsWithConcat(Host + "/uploads/", path[9..]);
      Host + path
    else
      StartsWithConcat(Host + "/uploads/", path);
      Host + "/uploads/" + path
  }

  /** A file name and the same name under `/uploads/` give the same URL. */
  lemma SellerImageUrlForms(x: string)
    requires !StartsWith(x, "/uploads/")
    ensures SellerImageUrl("/uploads/" + x) == SellerImageUrl(x) == Host + "/uploads/" + x
  {
    StartsWithConcat("/uploads/", x);
  }

  /** The first preview: the stored seller image, else the user's picture, else none. */
  function InitialPreview(sellerImage: Option<string>, user: Record): (p: Option<string>)
    ensures Truthy(sellerImage) ==> p == Some(SellerImageUrl(sellerImage.value))
    ensures !Truthy(sellerImage) && Truthy(Field(user, "picture")) ==> p == Some(user["picture"])
    ensures !Truthy(sellerImage) && !Truthy(Field(user, "picture")) ==> p == None
  {
    if Truthy(sellerImage) then Some(SellerImageUrl(sellerImage.value))
    else OrNull(Field(user, "picture"))
  }

  /** The four text fields of the form. */
  datatype Profile = Profile(businessName: string, businessDescription: string, businessAddress: string, phoneNum: string)

  /** The fields of the fetched seller, each "" when missing or empty. */
  function ProfileOf(seller: Record): (p: Profile)
    ensures p.businessName == OrDefault(Field(seller, "business_name"), "")
    ensures p.businessDescription == OrDefault(Field(seller, "business_description"), "")
    ensures p.businessAddress == OrDefault(Field(seller, "business_address"), "")
    ensures p.phoneNum == OrDefault(Field(seller, "phone_num"), "")
    ensures !Truthy(Field(seller, "business_name")) ==> p.businessName == ""
  {
    Profile(OrDefault(Field(seller, "business_name"), ""), OrDefault(Field(seller, "business_description"), ""),
            OrDefault(Field(seller, "business_address"), ""), OrDefault(Field(seller, "phone_num"), ""))
  }

  /** The answer of `GET /api/seller/{id}`, or a request or parse that threw (with its message). */
  datatype SellerResponse = Answered(status: string, seller: Option<Record>, message: Option<string>)
                          | Thrown(error: Option<string>)

  datatype LoadResult = Loaded(profile: Profile, preview: Option<string>) | LoadError(message: string)

  /**
   * How loading ends: without a seller id, an error before any request;
   * otherwise the seller's fields and preview when the answer has them,
   * else the answer's message or a fallback.
   */
  function LoadSeller(sellerId: Option<string>, resp: SellerResponse, user: Record): (r: LoadResult)
    ensures !Truthy(sellerId) ==> r == LoadError(MissingIdMessage)
    ensures r.Loaded? <==> Truthy(sellerId) && resp.Answered? && resp.status == "success" && resp.seller.Some?
    ensures r.Loaded? ==>
              r.profile == ProfileOf(resp.seller.value)
              && r.preview == InitialPreview(Field(resp.seller.value, "seller_image"), user)
    ensures Truthy(sellerId) && resp.Answered? && !r.Loaded? ==> r == LoadError(OrDefault(resp.message, FetchFallback))
    ensures Truthy(sellerId) && resp.Thrown? ==> r == LoadError(OrDefault(resp.error, NetworkFallback))
    ensures r.LoadError? ==> r.message != ""
  {
    if !Truthy(sellerId) then LoadError(MissingIdMessage)
    else match resp
      case Thrown(error) => LoadError(OrDefault(error, NetworkFallback))
      case Answered(status, seller, message) =>
        if status == "success" && seller.Some? then
          Loaded(ProfileOf(seller.value), InitialPreview(Field(seller.value, "seller_image"), user))
        else LoadError(OrDefault(message, FetchFallback))
  }

  /** Whether a chosen picture is turned away. */
  function TooLarge(file: File): (b: bool)
    ensures b <==> file.size > 5242880
  {
    file.size > MaxImageBytes
  }

  /** The body of `PUT /api/seller/update/{id}`. */
  function EditPayload(p: Profile, newImage: Option<File>, preview: Option<string>, user: Record): (r: Payload)
    ensures 4 <= |r| <= 5
    ensures r[0] == ("business_name", Text(Trim(p.businessName)))
    ensures |r| == 5 <==> newImage.Some? || (Truthy(Field(user, "picture")) && preview == Field(user, "picture"))
  {
    [("business_name", Text(Trim(p.businessName))), ("business_description", Text(p.businessDescription)),
     ("business_address", Text(p.businessAddress)), ("phone_num", Text(p.phoneNum))]
    + (if newImage.None? && Truthy(Field(user, "picture")) && preview == Field(user, "picture")
       then [("profile_pic_url", Text(user["picture"]))]
       else if newImage.Some? then [("profile_image", Blob(newImage.value))]
       else [])
  }

  /**
   * The picture fields exclude each other: a new file is sent as
   * `profile_image`; with no new file, the user's picture is sent as
   * `profile_pic_url` only when it is what the preview shows.
   */
  lemma EditPayloadImageFields(p: Profile, newImage: Option<File>, preview: Option<string>, user: Record)
    ensures !("profile_pic_url" in Keys(EditPayload(p, newImage, preview, user))
              && "profile_image" in Keys(EditPayload(p, newImage, preview, user)))
    ensures "profile_image" in Keys(EditPayload(p, newImage, preview, user)) <==> newImage.Some?
    ensures "profile_pic_url" in Keys(EditPayload(p, newImage, preview, user)) <==>
              newImage.None? && Truthy(Field(user, "picture")) && preview == Field(user, "picture")
    ensures |EditPayload(p, newImage, preview, user)| <= 5
  {
    var payload := EditPayload(p, newImage, preview, user);
    var base: Payload := payload[..4];
    var image := payload[4..];
    assert payload == base + image;
    assert Keys(payload) == Keys(base) + Keys(image);
    assert Keys(base) == ["business_name", "business_description", "business_address", "phone_num"];
    if newImage.None? && Truthy(Field(user, "picture")) && preview == Field(user, "picture") {
      assert Keys(image) == ["profile_pic_url"];
    } else if newImage.Some? {
      assert Keys(image) == ["profile_image"];
    } else {
      assert Keys(image) == [];
    }
  }

  /** The text fields: the business name trimmed, the others as they stand. */
  lemma EditPayloadTextFields(p: Profile, newImage: Option<File>, preview: Option<string>, user: Record)
    ensures |EditPayload(p, newImage, preview, user)| >= 4
    ensures EditPayload(p, newImage, preview, user)[0] == ("business_name", Text(Trim(p.businessName)))
    ensures EditPayload(p, newImage, preview, user)[1] == ("business_description", Text(p.businessDescription))
    ensures EditPayload(p, newImage, preview, user)[2] == ("business_address", Text(p.businessAddress))
    ensures EditPayload(p, newImage, preview, user)[3] == ("phone_num", Text(p.phoneNum))
  {
  }

  /** The answer of the update request, or a request or parse that threw (with its message). */
  datatype UpdateResponse = Answered(success: bool, message: Option<string>, error: Option<string>)
                          | Thrown(error: Option<string>)

  /** The form for route `/seller/edit/{id}`. */
  class EditProfileForm {
    const sellerId: Option<string>
    var profile: Profile
    var profileImage: Option<File>
    var preview: Option<string>
    var loadingData: bool
    var submitting: bool
    var error: Option<string>

    constructor (id: Option<string>)
      ensures sellerId == id && profile == Profile("", "", "", "")
      ensures profileImage.None? && preview.None? && loadingData && !submitting && error.None?
    {
      sellerId := id;
      profile := Profile("", "", "", "");
      profileImage, preview := None, None;
      loadingData, submitting := true, false;
      error := None;
    }

    /**
     * The load effect: the request is made only with a seller id; either the
     * fields and the preview are filled in or the error is set, and loading
     * ends after every outcome.
     */
    method Load(resp: SellerResponse, user: Record) returns (requested: bool)
      modifies this
      ensures requested == Truthy(sellerId)
      ensures !loadingData
      ensures profileImage == old(profileImage) && submitting == old(submitting)
      ensures LoadSeller(sellerId, resp, user).Loaded? ==>
                profile == LoadSeller(sellerId, resp, user).profile
                && preview == LoadSeller(sellerId, resp, user).preview && error == old(error)
      ensures LoadSeller(sellerId, resp, user).LoadError? ==>
                profile == old(profile) && preview == old(preview)
                && error == Some(LoadSeller(sellerId, resp, user).message)
    {
      loadingData := true;
      requested := Truthy(sellerId);
      var result := LoadSeller(sellerId, resp, user);
      match result {
        case Loaded(p, pre) =>
          profile := p;
          preview := pre;
        case LoadError(message) =>
          error := Some(message);
      }
      loadingData := false;
    }

    /**
     * A picture is chosen (`objectUrl` stands for `URL.createObjectURL(file)`):
     * no file does nothing, a file over 5 MB is turned away with an alert, and
     * any other becomes both the preview and the file to upload.
     */
    method ChangeImage(file: Option<File>, objectUrl: string) returns (rejected: bool)
      modifies this
      ensures rejected <==> file.Some? && TooLarge(file.value)
      ensures file.None? || rejected ==> preview == old(preview) && profileImage == old(profileImage)
      ensures file.Some? && !rejected ==> preview == Some(objectUrl) && profileImage == file
      ensures profile == old(profile) && loadingData == old(loadingData)
      ensures submitting == old(submitting) && error == old(error)
    {
      rejected := false;
      if file.None? {
        return;
      }
      if TooLarge(file.value) {
        rejected := true;
        return;
      }
      preview := Some(objectUrl);
      profileImage := file;
    }

    /**
     * `handleSubmit` up to the request: a blank business name stops it;
     * otherwise the fields are appended one by one and the form is submitting.
     */
    method Submit(user: Record) returns (payload: Option<Payload>)
      modifies this
      ensures payload.None? <==> AllWhitespace(profile.businessName)
      ensures payload.None? ==> submitting == old(submitting)
      ensures payload.Some? ==> submitting && payload.value == EditPayload(profile, profileImage, preview, user)
      ensures profile == old(profile) && profileImage == old(profileImage) && preview == old(preview)
      ensures loadingData == old(loadingData) && error == old(error)
    {
      TrimEmptyIff(profile.businessName);
      if Trim(profile.businessName) == "" {
        return None;
      }
      var form: Payload := [];
      form := form + [("business_name", Text(Trim(profile.businessName)))];
      form := form + [("business_description", Text(profile.businessDescription))];
      form := form + [("business_address", Text(profile.businessAddress))];
      form := form + [("phone_num", Text(profile.phoneNum))];
      if profileImage.None? && Truthy(Field(user, "picture")) && preview == Field(user, "picture") {
        form := form + [("profile_pic_url", Text(user["picture"]))];
      } else if profileImage.Some? {
        form := form + [("profile_image", Blob(profileImage.value))];
      }
      submitting := true;
      payload := Some(form);
    }

    /**
     * The update settling: success alerts its message and goes to the store
     * page; failure alerts the error. Submitting ends either way.
     */
    method Finish(resp: UpdateResponse) returns (alert: string, target: Option<string>)
      modifies this
      ensures !submitting
      ensures target.Some? <==> resp.Answered? && resp.success
      ensures target.Some? ==>
                target.value == "/store/" + Interpolate(sellerId)
                && alert == OrDefault(resp.message, UpdatedFallback)
      ensures resp.Answered? && !resp.success ==> alert == OrDefault(resp.error, UpdateFallback)
      ensures resp.Thrown? ==> alert == OrDefault(resp.error, NetworkFallback)
      ensures profile == old(profile) && profileImage == old(profileImage) && preview == old(preview)
      ensures loadingData == old(loadingData) && error == old(error)
    {
      target := None;
      match resp {
        case Answered(success, message, err) =>
          if success {
            alert := OrDefault(message, UpdatedFallback);
            target := Some("/store/" + Interpolate(sellerId));
          } else {
            alert := OrDefault(err, UpdateFallback);
          }
        case Thrown(err) =>
          alert := OrDefault(err, NetworkFallback);
      }
      submitting := false;
    }
  }
}
