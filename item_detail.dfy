/**
 * The product detail page: how the item-detail answer becomes the product
 * shown, the view tracking, the image picker and the two navigations
 * (to the seller's store and to checkout).
 */
module ItemDetail {

  import opened Js

  /** The store picture shown when the seller has none. */
  const DefaultStoreImage := "/uploads/Vinque_logo.png"

  /** The customer id reported for a view when nobody is logged in. */
  const GuestCustomerId := "1"

  /** The present, non-empty entries of `s`, in their order (`.filter(Boolean)`). */
  function FilterTruthy(s: seq<Option<string>>): (r: seq<string>)
    ensures |r| <= |s|
    ensures forall i :: 0 <= i < |r| ==> r[i] != ""
    ensures forall x :: x in r <==> x != "" && Some(x) in s
  {
    if s == [] then []
    else
      assert s == [s[0]] + s[1..];
      if Truthy(s[0]) then [s[0].value] + FilterTruthy(s[1..]) else FilterTruthy(s[1..])
  }

  /** The filter keeps the first truthy entry first, and is empty exactly when no entry is truthy. */
  lemma {:induction false} FilterTruthyFirst(s: seq<Option<string>>)
    ensures FilterTruthy(s) == [] <==> forall i :: 0 <= i < |s| ==> !Truthy(s[i])
    ensures FilterTruthy(s) != [] ==>
              exists i :: 0 <= i < |s| && s[i] == Some(FilterTruthy(s)[0])
                          && forall j :: 0 <= j < i ==> !Truthy(s[j])
  {
    if s != [] && !Truthy(s[0]) {
      FilterTruthyFirst(s[1..]);
      assert forall i :: 1 <= i < |s| ==> s[i] == s[1..][i - 1];
      if FilterTruthy(s[1..]) != [] {
        var i :| 0 <= i < |s[1..]| && s[1..][i] == Some(FilterTruthy(s[1..])[0])
                 && forall j :: 0 <= j < i ==> !Truthy(s[1..][j]);
        assert s[i + 1] == Some(FilterTruthy(s)[0]);
        assert forall j :: 0 <= j < i + 1 ==> !Truthy(s[j]);
      }
    }
  }

  /** One entry's share of the filter: its value when truthy, else nothing. */
  function Keep(v: Option<string>): (r: seq<string>)
    ensures r == [] <==> !Truthy(v)
    ensures r != [] ==> r == [v.value]
  {
    if Truthy(v) then [v.value] else []
  }

  /** Filtering two lists one after the other filters each in turn: order and repeats are kept. */
  lemma {:induction false} FilterTruthyConcat(a: seq<Option<string>>, b: seq<Option<string>>)
    ensures FilterTruthy(a + b) == FilterTruthy(a) + FilterTruthy(b)
  {
    if a == [] {
      assert a + b == b;
    } else {
      assert (a + b)[0] == a[0] && (a + b)[1..] == a[1..] + b;
      FilterTruthyConcat(a[1..], b);
    }
  }

  /** `.filter(Boolean)` is each entry's share, joined in order. */
  lemma FilterTruthyEntries(x: Option<string>, y: Option<string>, z: Option<string>)
    ensures FilterTruthy([x, y, z]) == Keep(x) + Keep(y) + Keep(z)
  {
    var yz := [y] + [z];
    FilterTruthyConcat([y], [z]);
    FilterTruthyConcat([x], yz);
    FilterTruthySingle(x);
    FilterTruthySingle(y);
    FilterTruthySingle(z);
    assert [x] + yz == [x, y, z];
  }

  lemma FilterTruthySingle(x: Option<string>)
    ensures FilterTruthy([x]) == Keep(x)
  {
    assert [x][1..] == [];
  }

  /** A raw `verified` value as the database returns it. */
  datatype Raw = Num(n: real) | Str(s: string) | Absent

  /** `v === 1 || v === "1"`: no other number or string counts. */
  function IsVerified(v: Raw): (b: bool)
    ensures b <==> v == Num(1.0) || v == Str("1")
  {
    match v
    case Num(n) => n == 1.0
    case Str(s) => s == "1"
    case Absent => false
  }

  /**
   * The `data` of a successful item-detail answer: its fields as text, and
   * the `verified` value kept raw because it is compared by type.
   */
  datatype ItemData = ItemData(fields: Record, verified: Raw)

  /** The seller part of the product shown. */
  datatype Seller = Seller(
    sellerId: Option<string>, storeName: Option<string>, storeImage: string, storePath: string,
    address: Option<string>, description: Option<string>)

  /** The product shown. */
  datatype Item = Item(
    id: Option<string>, name: Option<string>, price: Option<string>, description: Option<string>,
    verified: bool, category: Option<string>, historianName: Option<string>, historianType: Option<string>,
    images: seq<string>, seller: Seller)

  /** The image URLs: the non-empty ones of `image1_path` to `image3_path`, in that order. */
  function ImageList(d: Record): (images: seq<string>)
    ensures |images| <= 3
    ensures forall i :: 0 <= i < |images| ==> images[i] != ""
    ensures forall x :: x in images <==>
              x != "" && (Field(d, "image1_path") == Some(x) || Field(d, "image2_path") == Some(x)
                          || Field(d, "image3_path") == Some(x))
  {
    FilterTruthy([Field(d, "image1_path"), Field(d, "image2_path"), Field(d, "image3_path")])
  }

  /** The image list is the truthy paths of image1, image2 and image3, in that order, repeats included. */
  lemma ImageListInOrder(d: Record)
    ensures ImageList(d) == Keep(Field(d, "image1_path")) + Keep(Field(d, "image2_path")) + Keep(Field(d, "image3_path"))
  {
    FilterTruthyEntries(Field(d, "image1_path"), Field(d, "image2_path"), Field(d, "image3_path"));
  }

  /** The first image is the first non-empty path, and there is none when all three are empty or missing. */
  lemma FirstImageSelected(d: Record)
    ensures Truthy(Field(d, "image1_path")) ==> ImageList(d)[0] == d["image1_path"]
    ensures !Truthy(Field(d, "image1_path")) && Truthy(Field(d, "image2_path")) ==> ImageList(d)[0] == d["image2_path"]
    ensures !Truthy(Field(d, "image1_path")) && !Truthy(Field(d, "image2_path")) && Truthy(Field(d, "image3_path"))
            ==> ImageList(d) == [d["image3_path"]]
    ensures ImageList(d) == [] <==>
              !Truthy(Field(d, "image1_path")) && !Truthy(Field(d, "image2_path")) && !Truthy(Field(d, "image3_path"))
  {
    var s := [Field(d, "image1_path"), Field(d, "image2_path"), Field(d, "image3_path")];
    FilterTruthyFirst(s);
    assert s[1..][1..] == [s[2]] && s[1..][1..][1..] == [];
  }

  /** `/store/${seller_id}`. */
  function StorePath(sellerId: Option<string>): (p: string)
    ensures StartsWith(p, "/store/") && p[|"/store/"|..] == Interpolate(sellerId)
  {
    StartsWithConcat("/store/", Interpolate(sellerId));
    "/store/" + Interpolate(sellerId)
  }

  /** The product built from a successful answer's `data`. */
  function DecodeItem(d: ItemData): (it: Item)
    ensures it.id == Field(d.fields, "product_id") && it.name == Field(d.fields, "product_name")
    ensures it.verified <==> d.verified == Num(1.0) || d.verified == Str("1")
    ensures it.images == ImageList(d.fields) && |it.images| <= 3
    ensures it.seller.sellerId == Field(d.fields, "seller_id")
    ensures it.seller.storeImage != ""
    ensures Truthy(Field(d.fields, "store_image")) ==> it.seller.storeImage == d.fields["store_image"]
    ensures !Truthy(Field(d.fields, "store_image")) ==> it.seller.storeImage == DefaultStoreImage
    ensures it.seller.storePath == StorePath(it.seller.sellerId)
  {
    var f := d.fields;
    Item(Field(f, "product_id"), Field(f, "product_name"), Field(f, "price"), Field(f, "description"),
         IsVerified(d.verified), Field(f, "category"), Field(f, "Historian_Name"), Field(f, "Historian_Type"),
         ImageList(f),
         Seller(Field(f, "seller_id"), Field(f, "store_name"), OrDefault(Field(f, "store_image"), DefaultStoreImage),
                StorePath(Field(f, "seller_id")), Field(f, "business_address"), Field(f, "business_description")))
  }

  /** The answer of `GET /api/item-detail/{id}`; a success without `data` throws and is caught. */
  datatype ItemResponse = Answered(status: string, data: Option<ItemData>) | Thrown

  /** The body of `POST /api/track-product-view`. */
  datatype TrackRequest = TrackRequest(productId: string, customerId: string)

  /** The answer of the tracking request: `status` and `viewCount`, or a request that threw. */
  datatype TrackResponse = Answered(status: string, viewCount: Option<int>) | Thrown

  /** The body of `POST /api/visit-store`. */
  datatype VisitRequest = VisitRequest(customerId: string, sellerId: Option<string>)

  /** The viewer reported to tracking: the stored user's `user_id`, else the guest id "1". */
  function TrackingCustomerId(user: Option<Record>): (id: string)
    ensures id != ""
    ensures Truthy(FieldOf(user, "user_id")) ==> id == user.value["user_id"]
    ensures !Truthy(FieldOf(user, "user_id")) ==> id == GuestCustomerId
  {
    OrDefault(FieldOf(user, "user_id"), GuestCustomerId)
  }

  /** `data.viewCount || 0`: a missing count and a zero count both show 0. */
  function ViewCount(v: Option<int>): (n: int)
    ensures v.Some? ==> n == v.value
    ensures v.None? ==> n == 0
  {
    if v.Some? && v.value != 0 then v.value else 0
  }

  /** Where the checkout button goes: `/checkout/${product.id}`. */
  function CheckoutPath(it: Item): (p: string)
    ensures StartsWith(p, "/checkout/") && p[|"/checkout/"|..] == Interpolate(it.id)
  {
    StartsWithConcat("/checkout/", Interpolate(it.id));
    "/checkout/" + Interpolate(it.id)
  }

  /** The page for route `/item/{id}`. */
  class ItemPage {
    const id: Option<string>
    var product: Option<Item>
    var selectedImage: string
    var viewCount: int

    constructor (routeId: Option<string>)
      ensures id == routeId && product.None? && selectedImage == "" && viewCount == 0
    {
      id := routeId;
      product := None;
      selectedImage := "";
      viewCount := 0;
    }

    /**
     * The product load settling: a success with data sets the product and,
     * when it has images, selects the first; anything else changes nothing.
     */
    method OnProduct(resp: ItemResponse)
      modifies this
      ensures resp.Answered? && resp.status == "success" && resp.data.Some? ==>
                product == Some(DecodeItem(resp.data.value))
                && selectedImage == if product.value.images != [] then product.value.images[0] else old(selectedImage)
      ensures !(resp.Answered? && resp.status == "success" && resp.data.Some?) ==>
                product == old(product) && selectedImage == old(selectedImage)
      ensures viewCount == old(viewCount)
    {
      if resp.Answered? && resp.status == "success" && resp.data.Some? {
        var images := ImageList(resp.data.value.fields);
        product := Some(DecodeItem(resp.data.value));
        if |images| > 0 {
          selectedImage := images[0];
        }
      }
    }

    /**
     * The tracking effect, which runs only with an id: it reports the view
     * and, on a success, shows the count from the answer.
     */
    method TrackView(user: Option<Record>, resp: TrackResponse) returns (request: Option<TrackRequest>)
      modifies this
      ensures request.Some? <==> Truthy(id)
      ensures request.Some? ==> request.value == TrackRequest(id.value, TrackingCustomerId(user))
      ensures Truthy(id) && resp.Answered? && resp.status == "success" ==> viewCount == ViewCount(resp.viewCount)
      ensures !(Truthy(id) && resp.Answered? && resp.status == "success") ==> viewCount == old(viewCount)
      ensures product == old(product) && selectedImage == old(selectedImage)
    {
      request := None;
      if Truthy(id) {
        request := Some(TrackRequest(id.value, TrackingCustomerId(user)));
        match resp {
          case Answered(status, count) =>
            if status == "success" {
              viewCount := ViewCount(count);
            }
          case Thrown =>
        }
      }
    }

    /** A thumbnail click selects that image and nothing else. */
    method ImageClick(img: string)
      modifies this
      ensures selectedImage == img
      ensures product == old(product) && viewCount == old(viewCount)
    {
      selectedImage := img;
    }

    /**
     * The store link, shown only once the product is set: without a logged-in
     * user nothing is requested and nothing navigates; otherwise the visit is
     * reported and the page goes to the store, whatever the report's answer.
     */
    method SellerClick(user: Option<Record>) returns (visit: Option<VisitRequest>, target: Option<string>)
      requires product.Some?
      ensures visit.None? <==> !Truthy(FieldOf(user, "user_id"))
      ensures visit.Some? ==> visit.value == VisitRequest(user.value["user_id"], product.value.seller.sellerId)
      ensures target.Some? <==> visit.Some?
      ensures target.Some? ==> target.value == product.value.seller.storePath
    {
      var customerId := FieldOf(user, "user_id");
      if !Truthy(customerId) {
        return None, None;
      }
      visit := Some(VisitRequest(customerId.value, product.value.seller.sellerId));
      target := Some(product.value.seller.storePath);
    }
  }
}
