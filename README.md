# Vinque storefront: page logic in Dafny

This project models the client-side logic of seven parts of the Vinque
antiques storefront, a React app:

- the checkout page (`ProcessItemPage`): the 50/50 split of the price, the
  payment-button mount guard, the demo product, the order record and the
  redirect after approval;
- the site header: which profile picture it shows, where search, the logo
  and the menu lead, the profile-image lookup and its merge into the
  stored user, and logout;
- the password-reset form: the password rule, the order of its checks, the
  request and the state afterwards;
- the sign-up form: the `FormData` fields and what happens after the answer;
- the seller profile editor: loading, the preview picture, the 5 MB gate
  and the update `FormData`;
- the product detail page: decoding the item, the image list, view
  tracking, the store link and the checkout link;
- the landing page: choosing up to five featured items at random, without
  replacement, and the scroll-to-top button.

Each page is a module. Values that are only computed are datatypes and
functions. Component state that handlers update is a class with those
fields, and each handler is a method. Its `modifies` clause names what it
changes. Its `ensures` clauses give the entire new state, defined by
functions whose properties the lemmas prove.

The `Js` module models the JavaScript semantics the pages depend on:
- fields that may be missing (`Option`);
- string length in UTF-16 code units;
- truthiness of strings and `a || b` defaulting;
- template interpolation of a missing value as `"undefined"`;
- `startsWith`;
- `String.prototype.trim`, modelled on ECMAScript's full whitespace and
  line-terminator sets.

The `Browser` module holds `localStorage` as a class over a map, along
with files and `FormData` payloads as ordered lists of named parts.

The network, `JSON.parse`, `JSON.stringify`, `encodeURIComponent` and
`Math.random` are inputs. Each response is a datatype value that includes
the request throwing. `JSON.parse` is a function parameter, and so are
`JSON.stringify` and `encodeURIComponent`. `Math.random` is replaced by a
sequence of drawn indices.

Three things the code does that a reader may not expect:

- **The checkout page never shows payment buttons.** When a load
  succeeds, the code computes an image URL and discards it, so `product`
  is never set and the page stays on "Loading...". When a load fails, the
  page sets a demo product (price 1000) with no `seller`. A success with no
  `image1_path` throws and ends in that same demo branch. The render then
  reads `product.seller.name`, which throws, so nothing is committed and
  the button container is never attached. The mount effect never passes
  its guard, and nothing is charged. `Checkout.SuccessLeavesProductUnset`,
  `Checkout.FailedLoadCrashesRender` and `Checkout.NoButtonsFromInitial`
  state these outcomes. The intended mapping of a loaded product is not
  visible in the code, so the model follows the code as written.
- **A password can pass the reset form's rule and still break it.** The
  rule is checked on the password as typed, but the trimmed password is
  sent. `" Abcdef1"` passes every check, yet `"Abcdef1"` reaches the
  server (`ResetPassword.SentPasswordMayBreakRule`).
- **Search and the logo can lead to different homes.** For a user record
  with both a customer id and a seller id, search prefers the customer
  home and the logo prefers the seller home (`Header.SearchAndLogoDisagree`).

## Model

| member | source | states |
|---|---|---|
| Js.Trim | pro/src/Page/SignUp/SignUp.jsx:29-35 | the result is no longer than the input and neither starts nor ends with whitespace |
| Js.Utf16Length | pro/src/Page/Reset-Password/ResetPassword.jsx:18 | the JavaScript length lies between the number of characters and twice that |
| Js.Utf16LengthBmp | pro/src/Page/Reset-Password/ResetPassword.jsx:18 | without characters above U+FFFF the JavaScript length is the number of characters |
| Js.Utf16LengthConcat | pro/src/Page/Reset-Password/ResetPassword.jsx:18 | the length of two strings joined is the sum of their lengths |
| Js.TrimEmptyIff | pro/src/Page/Reset-Password/ResetPassword.jsx:27 | `s.trim()` is empty exactly when every character of `s` is whitespace or a line terminator |
| Js.TrimIsMiddleSlice | pro/src/Page/SignUp/SignUp.jsx:29-35 | `trim` returns a contiguous slice of its input with only whitespace cut from either end, and the result neither starts nor ends with whitespace |
| Js.TrimKeepsTrimmed | pro/src/Page/SignUp/SignUp.jsx:29-35 | a string with no whitespace at either end is left unchanged by `trim` |
| Checkout.DownPayment | pro/src/Page/HomePage/ProcessItemPage/ProcessItemPage.jsx:56 | two down payments make the price; for a positive price the down payment lies strictly between 0 and the price |
| Checkout.RemainingPayment | pro/src/Page/HomePage/ProcessItemPage/ProcessItemPage.jsx:148-150 | the down payment plus the remaining payment is the price, and the two halves are equal |
| Checkout.ChargeAmount | pro/src/Page/HomePage/ProcessItemPage/ProcessItemPage.jsx:56-67 | the amount given to createOrder plus the balance is the price, and that amount is less than a positive price |
| Checkout.ResolveUserId | pro/src/Page/HomePage/ProcessItemPage/ProcessItemPage.jsx:82-89 | the `customer_id` storage item if truthy, else the stored user's `customer_id` if truthy, else "1"; never empty |
| Checkout.StoredUserId | pro/src/Page/HomePage/ProcessItemPage/ProcessItemPage.jsx:82-89 | the same resolution read from storage, with a missing `user` item parsed as "{}"; with neither item it is "1" |
| Checkout.PayerName | pro/src/Page/HomePage/ProcessItemPage/ProcessItemPage.jsx:98 | the given name, a space, then the surname when it is truthy, and nothing after the space otherwise |
| Checkout.BuildOrder | pro/src/Page/HomePage/ProcessItemPage/ProcessItemPage.jsx:90-99 | the order copies the ids, name, price and transaction id; its down payment is the charged amount, and down plus remaining payment is the price |
| Checkout.OrdersPath | pro/src/Page/HomePage/ProcessItemPage/ProcessItemPage.jsx:134 | the redirect is `/items/` followed by exactly the resolved user id |
| Checkout.AfterFetch | pro/src/Page/HomePage/ProcessItemPage/ProcessItemPage.jsx:17-44 | a throw or a non-success sets the demo product; a success with an image path keeps the product as it was; a success without one sets the demo product |
| Checkout.Step | pro/src/Page/HomePage/ProcessItemPage/ProcessItemPage.jsx:21-44 | approval sets only the completion flag; a fetch never changes it; the product stays what it was or becomes the demo product |
| Checkout.Run | pro/src/Page/HomePage/ProcessItemPage/ProcessItemPage.jsx:15-76 | after any sequence of loads and approvals, payment is complete exactly when it was or some event approved it; the product is the starting one or the demo product |
| Checkout.MountGuard | pro/src/Page/HomePage/ProcessItemPage/ProcessItemPage.jsx:52 | the guard passes only with a product, the provider script, a container and no completed payment; the charge and balance of that product then make its price |
| Checkout.ViewOf | pro/src/Page/HomePage/ProcessItemPage/ProcessItemPage.jsx:146-190 | "Loading..." exactly without a product; the render throws exactly for a product without `seller`; otherwise the view shows the down payment and the balance, which sum to the price |
| Checkout.CompletedIsFinal | pro/src/Page/HomePage/ProcessItemPage/ProcessItemPage.jsx:52 | once payment is complete, no sequence of later events clears it, so the buttons never mount again |
| Checkout.SuccessLeavesProductUnset | pro/src/Page/HomePage/ProcessItemPage/ProcessItemPage.jsx:21-24 | any number of successful loads with an image path leave the product unset, so the mount guard never passes |
| Checkout.FailedLoadCrashesRender | pro/src/Page/HomePage/ProcessItemPage/ProcessItemPage.jsx:25-44 | after a failed or thrown first load the demo product is set, its render throws, and the buttons do not mount |
| Checkout.NoButtonsFromInitial | pro/src/Page/HomePage/ProcessItemPage/ProcessItemPage.jsx:15-190 | from the initial state no sequence of loads and approvals reaches the checkout view, so the container is never committed and the buttons never mount |
| Checkout.CheckoutPage.OnFetch | pro/src/Page/HomePage/ProcessItemPage/ProcessItemPage.jsx:15-48 | the page state after the load settles is `Step` of the old state and the outcome; the committed ref is unchanged |
| Checkout.CheckoutPage.Commit | pro/src/Page/HomePage/ProcessItemPage/ProcessItemPage.jsx:146-190 | the render leaves the state unchanged; the ref holds the container exactly when the checkout view is committed, and is null otherwise |
| Checkout.CheckoutPage.Mount | pro/src/Page/HomePage/ProcessItemPage/ProcessItemPage.jsx:51-58 | it mounts exactly when the guard holds for the committed ref; the container then holds one set of buttons charging the down payment; otherwise the container is unchanged |
| Checkout.CheckoutPage.Approve | pro/src/Page/HomePage/ProcessItemPage/ProcessItemPage.jsx:68-135 | approval marks payment complete; the order uses the user id resolved from storage, and the redirect uses the same id; the committed ref is unchanged |
| Checkout.Container.Clear | pro/src/Page/HomePage/ProcessItemPage/ProcessItemPage.jsx:54 | the container is left empty |
| Checkout.Container.Render | pro/src/Page/HomePage/ProcessItemPage/ProcessItemPage.jsx:142 | rendering adds one set of buttons after what is there |
| Checkout.FailedLoadNeverMounts | pro/src/Page/HomePage/ProcessItemPage/ProcessItemPage.jsx:15-58 | on a new page whose load fails or throws, the render, load, re-render and mount effect mount no buttons and leave the container as it was |
| Browser.LocalStorage.GetItem | pro/src/Compo/Header/Header.jsx:19 | a value is returned exactly when the key is stored, and it is the stored value |
| Browser.LocalStorage.SetItem | pro/src/Compo/Header/Header.jsx:56 | the key maps to the new value and every other key is unchanged |
| Browser.LocalStorage.RemoveItem | pro/src/Compo/Header/Header.jsx:109-112 | the key is gone and every other key is unchanged |
| Header.ImagePath | pro/src/Compo/Header/Header.jsx:131-136 | a customer's `profile_pic`; for a seller without a customer id, `seller_image` then `profile_pic`; otherwise none; a result is never empty and is one of the stored fields |
| Header.IsExternalUrl | pro/src/Compo/Header/Header.jsx:126-128 | every `http://` and every `https://` URL is external, and an external URL starts with "http" and has at least 7 characters |
| Header.StripUploadsPrefix | pro/src/Compo/Header/Header.jsx:141 | the result is a suffix of the path, and a path that starts with neither `uploads` nor `/uploads` is unchanged |
| Header.StripUploadsPrefixCases | pro/src/Compo/Header/Header.jsx:141 | exactly one leading `uploads` is removed, with one optional "/" before it and one after it: `/uploads/`, `/uploads`, `uploads/` and `uploads` each cut off their own length |
| Header.StripUploadsForms | pro/src/Compo/Header/Header.jsx:141 | `x`, `uploads/x` and `/uploads/x` all strip to `x` |
| Header.ProfileSrc | pro/src/Compo/Header/Header.jsx:126-142 | no image gives the default icon; an http(s) URL is used as is; any other path is served from the API's `/uploads/` |
| Header.ProfileSrcSameForUploadForms | pro/src/Compo/Header/Header.jsx:138-142 | the three spellings of a stored upload give the same picture URL |
| Header.SearchSubmit | pro/src/Compo/Header/Header.jsx:66-77 | a blank term is ignored, and only a blank one; otherwise the raw term goes to `onSearch` and the target is the customer home, else the seller home, else `/home`, each with the encoded term |
| Header.LogoTarget | pro/src/Compo/Header/Header.jsx:120-124 | the seller home, else the customer home, else `/` |
| Header.SearchAndLogoDisagree | pro/src/Compo/Header/Header.jsx:70-122 | for a user with both ids, search goes to the customer home and the logo goes to the seller home |
| Header.MenuTarget | pro/src/Compo/Header/Header.jsx:83-93 | a menu entry navigates exactly when the id it links with is truthy: profile to `/profile/` and the customer id, store to `/store/` and the seller id, items to `/items/` and the customer id |
| Header.ImageQuery | pro/src/Compo/Header/Header.jsx:31-33 | the lookup is by customer id when there is one, else by seller id |
| Header.NeedsImageFetch | pro/src/Compo/Header/Header.jsx:26-30 | the lookup is needed only for a user with a customer or seller id, and only while the header would show the default icon |
| Header.MergeImages | pro/src/Compo/Header/Header.jsx:40-53 | the result satisfies the merge rule: only `profile_pic` and `seller_image` can change; each is set only for the matching role and only when the response has a value; all other fields are kept |
| Header.MergedFromUnique | pro/src/Compo/Header/Header.jsx:40-53 | exactly one record satisfies the merge rule, so the rule fixes the merged user completely |
| Header.HeaderView.OnMount | pro/src/Compo/Header/Header.jsx:18-35 | a stored user is parsed and shown; a lookup query is returned exactly when the user has an id and neither image |
| Header.HeaderView.OnImageResponse | pro/src/Compo/Header/Header.jsx:37-61 | on success the shown user is a record satisfying the merge rule for the parsed user and the response, and it is written to storage under `user`; on failure neither the user nor storage changes |
| Header.HeaderView.Logout | pro/src/Compo/Header/Header.jsx:94-114 | the backend is told only when the user has an id and a role; the four session keys are removed either way, and the target is `/login` |
| ResetPassword.Contains | pro/src/Page/Reset-Password/ResetPassword.jsx:18 | a left-to-right scan finds a match exactly when some character satisfies the test |
| ResetPassword.ValidatePassword | pro/src/Page/Reset-Password/ResetPassword.jsx:17-20 | at least 8 UTF-16 code units, none a line terminator, with at least one A-Z and at least one 0-9 |
| ResetPassword.AstralCharCountsTwice | pro/src/Page/Reset-Password/ResetPassword.jsx:18 | a seven-character password with one character above U+FFFF has length 8 and passes the rule |
| ResetPassword.ValidateForm | pro/src/Page/Reset-Password/ResetPassword.jsx:27-40 | it passes exactly when no field is blank, the rule holds and the passwords match; otherwise it gives the message of the first failing check |
| ResetPassword.ShowMismatchHint | pro/src/Page/Reset-Password/ResetPassword.jsx:151 | the hint shows exactly when the confirmation is non-empty and differs from the password |
| ResetPassword.MismatchHintAgreesWithCheck | pro/src/Page/Reset-Password/ResetPassword.jsx:151 | whenever submission fails on the mismatch, the inline hint is showing |
| ResetPassword.FailureMessage | pro/src/Page/Reset-Password/ResetPassword.jsx:60-73 | no error exactly for an ok answer with status success; otherwise the answer's message or "Password reset failed", or the thrown message |
| ResetPassword.SentPasswordMayBreakRule | pro/src/Page/Reset-Password/ResetPassword.jsx:32-54 | a space-padded seven-character password passes every check, but the trimmed password that is sent fails the rule |
| ResetPassword.ResetForm.Submit | pro/src/Page/Reset-Password/ResetPassword.jsx:22-55 | both messages are cleared; a failing check sets its message and nothing is sent; otherwise it is loading and the trimmed fields are sent |
| ResetPassword.ResetForm.Complete | pro/src/Page/Reset-Password/ResetPassword.jsx:58-76 | loading always ends; success clears the four fields, sets the success message and leads to `/login`; failure shows the error and keeps the fields |
| SignUp.RoleLabel | pro/src/Page/SignUp/SignUp.jsx:36 | "Customer" exactly for the customer role, otherwise "Seller" |
| SignUp.BaseFields | pro/src/Page/SignUp/SignUp.jsx:29-36 | eight fields, the last being `role` with the role label |
| SignUp.SellerFields | pro/src/Page/SignUp/SignUp.jsx:38-45 | at most two fields; none for a customer; both exactly for a seller with a permit file and a PayPal address |
| SignUp.SignupPayload | pro/src/Page/SignUp/SignUp.jsx:28-45 | 8 to 10 fields, the first eight being the base fields |
| SignUp.BuildPayload | pro/src/Page/SignUp/SignUp.jsx:23-45 | nothing is built exactly when the passwords differ as typed; otherwise the appended fields are the sign-up payload |
| SignUp.PayloadKeys | pro/src/Page/SignUp/SignUp.jsx:28-45 | the field names are the eight base names, then any seller extras in order |
| SignUp.PayloadStartsWithBaseFields | pro/src/Page/SignUp/SignUp.jsx:29-36 | 8 to 10 fields; the eight base fields come first in fixed order, the text ones trimmed, then the role label |
| SignUp.SellerOnlyFields | pro/src/Page/SignUp/SignUp.jsx:38-45 | the permit is sent exactly for a seller with a file, PayPal exactly for a seller with a non-empty address; a customer sends the eight base fields only |
| SignUp.PayloadKeysDistinct | pro/src/Page/SignUp/SignUp.jsx:28-45 | no field name is sent twice |
| SignUp.AfterSignup | pro/src/Page/SignUp/SignUp.jsx:54-68 | a non-ok answer or a throw fails with "Signup failed: " and the message; a seller goes to `/login` with the pending notice; a customer goes to `/home/` and the user id |
| SellerEditProfile.SellerImageUrl | pro/src/Page/SellerPage/EditProfile/SellerEditProfile.jsx:43-45 | the URL always starts with the host's `/uploads/`; a path already under `/uploads/` gets only the host prefixed |
| SellerEditProfile.SellerImageUrlForms | pro/src/Page/SellerPage/EditProfile/SellerEditProfile.jsx:43-45 | `x` and `/uploads/x` give the same URL |
| SellerEditProfile.InitialPreview | pro/src/Page/SellerPage/EditProfile/SellerEditProfile.jsx:42-51 | the seller image's URL, else the user's picture, else none |
| SellerEditProfile.ProfileOf | pro/src/Page/SellerPage/EditProfile/SellerEditProfile.jsx:36-39 | each form field is the seller's value, or "" when it is missing or empty |
| SellerEditProfile.LoadSeller | pro/src/Page/SellerPage/EditProfile/SellerEditProfile.jsx:29-56 | no seller id gives "Missing seller ID"; it loads exactly on a success that has a seller; otherwise the message or the fallback; an error message is never empty |
| SellerEditProfile.TooLarge | pro/src/Page/SellerPage/EditProfile/SellerEditProfile.jsx:68 | a picture is turned away exactly when it is over 5242880 bytes |
| SellerEditProfile.EditPayload | pro/src/Page/SellerPage/EditProfile/SellerEditProfile.jsx:82-93 | four or five fields, the first being the trimmed business name; the fifth, a picture field, is present exactly when there is a new file or the preview shows the picture of the user |
| SellerEditProfile.EditPayloadImageFields | pro/src/Page/SellerPage/EditProfile/SellerEditProfile.jsx:88-93 | a new file is sent as `profile_image` exactly when there is one; the user's picture is sent as `profile_pic_url` exactly when there is no file and the preview shows that picture; never both |
| SellerEditProfile.EditPayloadTextFields | pro/src/Page/SellerPage/EditProfile/SellerEditProfile.jsx:82-86 | the four text fields come first, with only the business name trimmed |
| SellerEditProfile.EditProfileForm.Load | pro/src/Page/SellerPage/EditProfile/SellerEditProfile.jsx:27-62 | a request is made exactly when there is a seller id; either the fields and the preview are filled in or the error is set; loading ends after every outcome |
| SellerEditProfile.EditProfileForm.ChangeImage | pro/src/Page/SellerPage/EditProfile/SellerEditProfile.jsx:65-73 | a file over 5 MB is turned away; no file changes nothing; an accepted file becomes the preview and the upload |
| SellerEditProfile.EditProfileForm.Submit | pro/src/Page/SellerPage/EditProfile/SellerEditProfile.jsx:78-96 | nothing is sent exactly when the business name is blank; otherwise the form is submitting and the appended fields are the edit payload |
| SellerEditProfile.EditProfileForm.Finish | pro/src/Page/SellerPage/EditProfile/SellerEditProfile.jsx:101-110 | submitting ends; it navigates to `/store/{id}` exactly on success; the alert is the message or its fallback for each outcome |
| ItemDetail.FilterTruthy | pro/src/Page/HomePage/ItemDetailPage/ItemDetailPage.jsx:42 | no longer than the input; no empty entry; contains exactly the non-empty values of the input |
| ItemDetail.FilterTruthyFirst | pro/src/Page/HomePage/ItemDetailPage/ItemDetailPage.jsx:42 | empty exactly when no entry is truthy; otherwise its first entry is the first truthy one |
| ItemDetail.ImageList | pro/src/Page/HomePage/ItemDetailPage/ItemDetailPage.jsx:42 | at most three images, none empty, each one of the three image paths |
| ItemDetail.ImageListInOrder | pro/src/Page/HomePage/ItemDetailPage/ItemDetailPage.jsx:42 | the image list is the truthy paths of image1, image2 and image3 in that order, repeats included |
| ItemDetail.FilterTruthyConcat | pro/src/Page/HomePage/ItemDetailPage/ItemDetailPage.jsx:42 | filtering two lists joined is filtering each and joining the results, so order and repeats are kept |
| ItemDetail.FilterTruthyEntries | pro/src/Page/HomePage/ItemDetailPage/ItemDetailPage.jsx:42 | the filter of three entries is each truthy entry, in order |
| ItemDetail.FirstImageSelected | pro/src/Page/HomePage/ItemDetailPage/ItemDetailPage.jsx:42-64 | the first image is the first non-empty path among image1, image2 and image3; there is none when all three are empty |
| ItemDetail.IsVerified | pro/src/Page/HomePage/ItemDetailPage/ItemDetailPage.jsx:49 | verified exactly for the number 1 or the string "1" |
| ItemDetail.StorePath | pro/src/Page/HomePage/ItemDetailPage/ItemDetailPage.jsx:58 | `/store/` followed by the seller id, or by "undefined" when it is missing |
| ItemDetail.DecodeItem | pro/src/Page/HomePage/ItemDetailPage/ItemDetailPage.jsx:44-62 | ids and name copied, the image list, `verified` coerced, the store image or the default logo, and the store path built from the seller id |
| ItemDetail.TrackingCustomerId | pro/src/Page/HomePage/ItemDetailPage/ItemDetailPage.jsx:16-17 | the stored user's `user_id`, else "1"; never empty |
| ItemDetail.ViewCount | pro/src/Page/HomePage/ItemDetailPage/ItemDetailPage.jsx:26 | the answer's count, or 0 when it is missing |
| ItemDetail.CheckoutPath | pro/src/Page/HomePage/ItemDetailPage/ItemDetailPage.jsx:113 | `/checkout/` followed by the product id |
| ItemDetail.ItemPage.OnProduct | pro/src/Page/HomePage/ItemDetailPage/ItemDetailPage.jsx:33-74 | a success with data sets the decoded product and selects its first image if it has one; anything else changes nothing |
| ItemDetail.ItemPage.TrackView | pro/src/Page/HomePage/ItemDetailPage/ItemDetailPage.jsx:14-30 | a view is reported exactly when there is an id; the count is updated only on a success |
| ItemDetail.ItemPage.ImageClick | pro/src/Page/HomePage/ItemDetailPage/ItemDetailPage.jsx:81 | the clicked image is selected and nothing else changes |
| ItemDetail.ItemPage.SellerClick | pro/src/Page/HomePage/ItemDetailPage/ItemDetailPage.jsx:83-111 | without a `user_id` there is no request and no navigation; otherwise the visit is reported and the page goes to the store path whatever the answer |
| Landing.ValidDraws | pro/src/Page/LandingPage/LandingPage.jsx:37-38 | valid draws for `k` picks from `n` items need `k <= n` and at least `k` draws, and the first draw is below `n`; no picks need no draws |
| Landing.Remove | pro/src/Page/LandingPage/LandingPage.jsx:40 | removing index `k` keeps the items before it and moves each later item one place down |
| Landing.Sample | pro/src/Page/LandingPage/LandingPage.jsx:37-41 | exactly `k` items are picked |
| Landing.SampleSubMultiset | pro/src/Page/LandingPage/LandingPage.jsx:37-41 | every pick comes from the list, and nothing is picked more often than it occurs there |
| Landing.PicksDistinctPositions | pro/src/Page/LandingPage/LandingPage.jsx:36-41 | the picks are the input's items at pairwise distinct positions, so no position is picked twice |
| Landing.PickFeatured | pro/src/Page/LandingPage/LandingPage.jsx:33-42 | the loop's result is the sample of `min(5, n)` items for the given draws |
| Landing.Featured | pro/src/Page/LandingPage/LandingPage.jsx:31-46 | at most five items; none unless the answer is a success with a list; `min(5, n)` for a list of `n` |
| Landing.FeaturedShape | pro/src/Page/LandingPage/LandingPage.jsx:31-49 | a success shows `min(5, n)` items drawn from the catalogue; a non-success, a throw, or a missing or empty list shows none |
| Landing.LandingPage.FetchItems | pro/src/Page/LandingPage/LandingPage.jsx:25-55 | the items become the featured sample, or none, and loading is false after every outcome |
| Landing.LandingPage.OnScroll | pro/src/Page/LandingPage/LandingPage.jsx:77-81 | the scroll-to-top button shows exactly when the page is scrolled past 400 |

## Left out

- Network, timers and the payment provider's SDK: each response is an input value, and each navigation is a returned path. `setTimeout` delays are not modelled. The 2-second redirect after approval assumes storage does not change in between.
- `JSON.parse` is modelled as a total function parameter. A stored value that is not valid JSON would throw, and that throw is not modelled. On the detail page the parsed user is an input.
- Ids and numbers read from records are kept as text. `parseInt` of `user_id` and `product_id` in the order record is not modelled, so the order holds the id strings. A numeric id 0, which is falsy in the source, is not distinguished from other ids.
- Checkout.CheckoutPage.Approve: requires a product, because the approval callback exists only on buttons that were mounted with a product. As written, the buttons never mount (`Checkout.NoButtonsFromInitial`), so this models the code of the callback for a product that would have a seller.
- ItemDetail.ItemPage.SellerClick: requires a product, because the store link is rendered only once the product is set. The same holds for the checkout button, which `ItemDetail.CheckoutPath` models as a function of the product.
- Landing.PickFeatured: each draw is given as an index below the current copy's length. These stand for `Math.floor(Math.random() * productsCopy.length)`, and the floating-point multiplication and floor are not modelled.
- Landing: the catalogue is a value, so the fact that the source splices only a copy and leaves `allProducts` unchanged holds by construction. The model does not state it as a separate property.
- SellerEditProfile.EditProfileForm.ChangeImage: `URL.createObjectURL` is an input string, and revoking an earlier `blob:` preview is not modelled.
- Floating-point formatting by `toFixed(2)` and `toLocaleString` is not modelled. Prices are exact reals, so the 50/50 split has no rounding.
- Rendering is modelled only for the checkout page, and only as far as whether its render commits the button container. Beyond that, rendering, CSS, `alert` and `console` output, the IntersectionObserver card animation, the hero timer, the video check and scroll listener registration are not modelled. Alerts appear only as returned strings where the page's next step depends on them.
- The order POST after approval is fired without being awaited, and its answer is only logged. The model returns the order and ignores any answer.
- ItemDetail.StorePath: ids in records are strings, so a field holding JSON `null`, which a template string renders as "null", is not represented. Only a missing field, rendered as "undefined", is. The same holds for `ItemDetail.CheckoutPath` and the other id paths.
- SignUp.AfterSignup: a successful customer answer without a `user` is the `MissingUser` error. In the source, reading `result.user.user_id` then throws a TypeError and the page alerts "Signup failed: " and that error's message. The engine's message text is not modelled.
- Behaviour the code does not have is not claimed. There is no idempotent order save, no retry, no guard against a second submit while one is in flight, no rounding to cents and no rejection of non-positive prices.
