/** The listing page: loading one listing (and counting the visit), the "contact seller"
    find-or-create of a conversation, and the choice of main image and thumbnails. */
module Details {
  import opened Market

  /** The picture shown when a listing has no usable first image. */
  const FallbackImage: string := "https://images.unsplash.com/photo-1617531653332-bd46c24f2068?w=800&q=80"

  /** `images?.[0] || fallback`: the first image unless it is missing or blank. */
  function MainImage(images: Option<seq<string>>): (src: string)
    ensures src != ""
    ensures images.Some? && |images.value| > 0 && images.value[0] != "" ==> src == images.value[0]
    ensures !(images.Some? && |images.value| > 0 && images.value[0] != "") ==> src == FallbackImage
  {
    if images.Some? && |images.value| > 0 && images.value[0] != "" then images.value[0] else FallbackImage
  }

  /** `images.slice(1, 5)`, shown only when there is more than one image: at most four
      thumbnails, the images after the first, in order. */
  function Thumbnails(images: Option<seq<string>>): (r: seq<string>)
    ensures |r| <= 4
    ensures images.None? || |images.value| <= 1 ==> r == []
    ensures images.Some? && |images.value| > 1 ==>
      (|r| == (if |images.value| < 5 then |images.value| - 1 else 4)
       && forall k :: 0 <= k < |r| ==> r[k] == images.value[k + 1])
  {
    if images.Some? && |images.value| > 1 then
      images.value[1..if |images.value| < 5 then |images.value| else 5]
    else []
  }

  /** The rows of `products` whose id is `id`, in table order. */
  function RowsWithId(products: seq<Listing>, id: string): (r: seq<Listing>)
    ensures forall p :: p in r <==> p in products && p.id == id
  {
    if products == [] then []
    else
      assert products == [products[0]] + products[1..];
      var rest := RowsWithId(products[1..], id);
      if products[0].id == id then [products[0]] + rest else rest
  }

  /** `.eq("id", id).single()`: the row when exactly one row has the id, an error otherwise. */
  function SingleById(products: seq<Listing>, id: string): (r: Option<Listing>)
    ensures r.Some? ==> r.value in products && r.value.id == id
    ensures r.Some? <==> |RowsWithId(products, id)| == 1
  {
    var rows := RowsWithId(products, id);
    if |rows| == 1 then Some(rows[0]) else None
  }

  /** `update({views_count: views}).eq("id", id)`. */
  function SetViews(products: seq<Listing>, id: string, views: nat): (r: seq<Listing>)
    ensures |r| == |products|
    ensures forall i :: 0 <= i < |products| && products[i].id != id ==> r[i] == products[i]
    ensures forall i :: 0 <= i < |products| && products[i].id == id ==> r[i] == products[i].(viewsCount := Some(views))
  {
    if products == [] then []
    else
      var head := if products[0].id == id then products[0].(viewsCount := Some(views)) else products[0];
      [head] + SetViews(products[1..], id, views)
  }

  /** What one visit leaves in the table: the counter of the fetched row becomes its old
      value (missing counts as 0) plus one. A fetch that errs (`fetchFailed`, or not
      exactly one row) writes nothing, and neither does a counter write that fails. */
  function Visit(products: seq<Listing>, id: string, fetchFailed: bool, writeFailed: bool): (r: seq<Listing>)
    ensures |r| == |products|
    ensures fetchFailed || writeFailed || SingleById(products, id).None? ==> r == products
  {
    var found := if fetchFailed then None else SingleById(products, id);
    if found.None? || writeFailed then products else SetViews(products, id, Views(found.value) + 1)
  }

  /** Setting the counter keeps the rows with the id, in order, each with the new count. */
  lemma {:induction false} RowsWithIdAfterSetViews(products: seq<Listing>, id: string, views: nat)
    ensures |RowsWithId(SetViews(products, id, views), id)| == |RowsWithId(products, id)|
    ensures forall k :: 0 <= k < |RowsWithId(products, id)| ==>
      RowsWithId(SetViews(products, id, views), id)[k] == RowsWithId(products, id)[k].(viewsCount := Some(views))
  {
    if products != [] {
      RowsWithIdAfterSetViews(products[1..], id, views);
      assert SetViews(products, id, views)[1..] == SetViews(products[1..], id, views);
    }
  }

  /** A visit to an existing listing whose fetch and write both succeed adds exactly one
      to its counter. */
  lemma VisitAddsOne(products: seq<Listing>, id: string)
    requires SingleById(products, id).Some?
    ensures var before := SingleById(products, id).value;
      SingleById(Visit(products, id, false, false), id) == Some(before.(viewsCount := Some(Views(before) + 1)))
  {
    var before := SingleById(products, id).value;
    var after := SetViews(products, id, Views(before) + 1);
    assert Visit(products, id, false, false) == after;
    RowsWithIdAfterSetViews(products, id, Views(before) + 1);
  }

  /** A visit changes no row with another id. */
  lemma VisitKeepsOtherRows(products: seq<Listing>, id: string, fetchFailed: bool, writeFailed: bool)
    ensures |Visit(products, id, fetchFailed, writeFailed)| == |products|
    ensures forall i :: 0 <= i < |products| && products[i].id != id ==>
      Visit(products, id, fetchFailed, writeFailed)[i] == products[i]
  {
  }

  /** Two visits in a row, neither of which fails, add exactly two. */
  lemma TwoVisitsAddTwo(products: seq<Listing>, id: string)
    requires SingleById(products, id).Some?
    ensures var twice := Visit(Visit(products, id, false, false), id, false, false);
      SingleById(twice, id).Some? && Views(SingleById(twice, id).value) == Views(SingleById(products, id).value) + 2
  {
    VisitAddsOne(products, id);
    VisitAddsOne(Visit(products, id, false, false), id);
  }

  /** The conversations about `productId` between this buyer and this seller. */
  function Matching(convs: seq<Conversation>, productId: string, buyer: UserId, seller: UserId): (r: seq<Conversation>)
    ensures forall c :: c in r <==> c in convs && c.productId == productId && c.buyerId == buyer && c.sellerId == seller
  {
    if convs == [] then []
    else
      assert convs == [convs[0]] + convs[1..];
      var rest := Matching(convs[1..], productId, buyer, seller);
      var c := convs[0];
      if c.productId == productId && c.buyerId == buyer && c.sellerId == seller then [c] + rest else rest
  }

  lemma {:induction false} MatchingAppend(convs: seq<Conversation>, c: Conversation, productId: string, buyer: UserId, seller: UserId)
    ensures Matching(convs + [c], productId, buyer, seller)
      == Matching(convs, productId, buyer, seller)
         + (if c.productId == productId && c.buyerId == buyer && c.sellerId == seller then [c] else [])
  {
    if convs == [] {
      assert convs + [c] == [c];
    } else {
      assert (convs + [c])[1..] == convs[1..] + [c];
      MatchingAppend(convs[1..], c, productId, buyer, seller);
    }
  }

  /** The `data` of `.maybeSingle()` on the lookup: the id when exactly one conversation
      matches; no match, the error raised for several matches and a lookup that fails
      (`failed`) all read as "none". */
  function ExistingConversation(convs: seq<Conversation>, productId: string, buyer: UserId, seller: UserId, failed: bool)
    : (r: Option<string>)
    ensures r.Some? ==> exists c :: c in convs && c.id == r.value && c.productId == productId && c.buyerId == buyer && c.sellerId == seller
    ensures r.Some? <==> !failed && |Matching(convs, productId, buyer, seller)| == 1
    ensures r.Some? ==> r.value == Matching(convs, productId, buyer, seller)[0].id
  {
    var m := Matching(convs, productId, buyer, seller);
    if !failed && |m| == 1 then Some(m[0].id) else None
  }

  /** The find-or-create of "contact seller": the table afterwards and the conversation the
      user is sent to (none when the insert failed). `lookupFailed` and `insertFailed` say
      which of the two calls erred. */
  function FindOrCreate(convs: seq<Conversation>, productId: string, buyer: UserId, seller: UserId, newId: string,
                        lookupFailed: bool, insertFailed: bool)
    : (r: (seq<Conversation>, Option<string>))
    ensures convs <= r.0 && |r.0| <= |convs| + 1
    ensures r.1.None? <==> insertFailed && ExistingConversation(convs, productId, buyer, seller, lookupFailed).None?
    ensures r.1.Some? ==> exists c :: c in r.0 && c.id == r.1.value && c.productId == productId && c.buyerId == buyer && c.sellerId == seller
    ensures ExistingConversation(convs, productId, buyer, seller, lookupFailed).Some? ==> r.0 == convs
    ensures insertFailed ==> r.0 == convs
    ensures !insertFailed && ExistingConversation(convs, productId, buyer, seller, lookupFailed).None? ==>
      (r.1 == Some(newId) && r.0 == convs + [Conversation(newId, productId, buyer, seller)]
       && |Matching(r.0, productId, buyer, seller)| == |Matching(convs, productId, buyer, seller)| + 1)
  {
    match ExistingConversation(convs, productId, buyer, seller, lookupFailed)
    case Some(id) => (convs, Some(id))
    case None =>
      if insertFailed then (convs, None)
      else
        var c := Conversation(newId, productId, buyer, seller);
        MatchingAppend(convs, c, productId, buyer, seller);
        (convs + [c], Some(newId))
  }

  /** Contacting the seller twice in a row, with no call failing, creates at most one
      conversation, and both times the user lands in the same one. */
  lemma ContactTwiceSameConversation(convs: seq<Conversation>, productId: string, buyer: UserId, seller: UserId, newId1: string, newId2: string)
    requires |Matching(convs, productId, buyer, seller)| <= 1
    ensures var (after1, target1) := FindOrCreate(convs, productId, buyer, seller, newId1, false, false);
      && target1.Some?
      && |Matching(after1, productId, buyer, seller)| == 1
      && |after1| <= |convs| + 1
      && FindOrCreate(after1, productId, buyer, seller, newId2, false, false) == (after1, target1)
  {
    if ExistingConversation(convs, productId, buyer, seller, false).None? {
      MatchingAppend(convs, Conversation(newId1, productId, buyer, seller), productId, buyer, seller);
    }
  }

  /** A lookup that fails while the conversation exists reads as "none", so a successful
      insert adds a second conversation for the same listing, buyer and seller. */
  lemma FailedLookupDuplicates(convs: seq<Conversation>, productId: string, buyer: UserId, seller: UserId, newId: string)
    requires |Matching(convs, productId, buyer, seller)| == 1
    ensures var (after, target) := FindOrCreate(convs, productId, buyer, seller, newId, true, false);
      target == Some(newId) && |Matching(after, productId, buyer, seller)| == 2
  {
  }

  /** The page's state. */
  class DetailsPage {
    const productId: string
    var product: Option<Listing>
    var loading: bool
    var currentUser: Option<UserId>

    constructor (productId: string, currentUser: Option<UserId>)
      ensures this.productId == productId && this.currentUser == currentUser
      ensures product.None? && loading
    {
      this.productId := productId;
      this.currentUser := currentUser;
      product := None;
      loading := true;
    }

    /** Loads the listing and writes back its counter plus one. A fetch error
        (`fetchFailed`, or not exactly one row) shows a toast, sends the user home, writes
        nothing and leaves `loading` on. The write's own result is never read: when it
        fails (`writeFailed`) the counter stays and the page shows the listing all the same. */
    method FetchProduct(db: Backend, fetchFailed: bool, writeFailed: bool) returns (nav: Nav, notice: Notice)
      modifies this`product, this`loading, db`products
      ensures db.products == Visit(old(db.products), productId, fetchFailed, writeFailed)
      ensures fetchFailed || SingleById(old(db.products), productId).None? ==>
        (nav == GoTo(Home) && notice == ErrorToast && product == old(product) && loading == old(loading))
      ensures !fetchFailed && SingleById(old(db.products), productId).Some? ==>
        (nav == Stay && notice == Silent && product == SingleById(old(db.products), productId) && !loading)
    {
      var table := db.products;
      var found := if fetchFailed then None else SingleById(table, productId);
      if found.None? {
        nav, notice := GoTo(Home), ErrorToast;
        return;
      }
      product := found;
      db.products := Visit(table, productId, fetchFailed, writeFailed);
      loading := false;
      nav, notice := Stay, Silent;
    }

    /** "Contact seller": without a user, a hint and /auth and no lookup; otherwise the
        find-or-create, then the chat of the conversation, or an error toast when the
        insert failed. A failed lookup reads as "no conversation". */
    method ContactSeller(db: Backend, newId: string, lookupFailed: bool, insertFailed: bool) returns (nav: Nav, notice: Notice)
      requires product.Some?
      modifies db`conversations
      ensures currentUser.None? ==>
        (nav == GoTo(Auth) && notice == InfoToast && db.conversations == old(db.conversations))
      ensures currentUser.Some? ==>
        var (after, target) := FindOrCreate(old(db.conversations), product.value.id, currentUser.value, product.value.sellerId, newId,
                                            lookupFailed, insertFailed);
        && db.conversations == after
        && nav == (if target.Some? then GoTo(ChatRoute(target.value)) else Stay)
        && notice == (if target.Some? then Silent else ErrorToast)
    {
      if currentUser.None? {
        nav, notice := GoTo(Auth), InfoToast;
        return;
      }
      var p := product.value;
      var existing := ExistingConversation(db.conversations, p.id, currentUser.value, p.sellerId, lookupFailed);
      if existing.Some? {
        nav, notice := GoTo(ChatRoute(existing.value)), Silent;
      } else if insertFailed {
        nav, notice := Stay, ErrorToast;
      } else {
        db.conversations := db.conversations + [Conversation(newId, p.id, currentUser.value, p.sellerId)];
        nav, notice := GoTo(ChatRoute(newId)), Silent;
      }
    }
  }
}
