/** The "sell" form: the fixed option lists, the form state, and the submit handler
    that inserts one pending listing owned by the signed-in user. */
module AddListing {
  import opened Market
  import opened Text
  import Admin

  /** The category slugs offered by the category select. */
  const Categories: seq<string> := [
    "vehicles", "property", "mobile-phones", "electronics", "home-furniture",
    "fashion", "beauty", "services", "repair", "commercial", "babies-kids",
    "food", "pets", "other"]

  /** The condition labels offered by the condition select. */
  const Conditions: seq<string> := ["Brand New", "Foreign Used", "Nigerian Used"]

  lemma OptionListsAreDistinct()
    ensures |Categories| == 14 && |Conditions| == 3
    ensures forall i, j :: 0 <= i < j < |Categories| ==> Categories[i] != Categories[j]
    ensures forall i, j :: 0 <= i < j < |Conditions| ==> Conditions[i] != Conditions[j]
  {
  }

  /** The form fields; an empty price box is `None`. */
  datatype Form = Form(
    title: string,
    description: string,
    price: Option<int>,
    category: string,
    condition: string,
    location: string,
    images: seq<string>)

  /** The form as the page opens: every field blank, one empty image slot. */
  const EmptyForm: Form := Form("", "", None, "", "", "", [""])

  /** The browser's `required` check on title, price, location, category and condition. */
  predicate RequiredFilled(f: Form) {
    f.title != "" && f.price.Some? && f.location != "" && f.category != "" && f.condition != ""
  }

  /** `images.filter(img => img.trim() !== "")`. */
  function DropBlankImages(images: seq<string>): (r: seq<string>)
    ensures |r| <= |images|
    ensures forall u :: u in r <==> u in images && Trim(u) != ""
  {
    if images == [] then []
    else
      assert images == [images[0]] + images[1..];
      var rest := DropBlankImages(images[1..]);
      if Trim(images[0]) != "" then [images[0]] + rest else rest
  }

  /** The filter works piece by piece, so the kept URLs stay in their order. */
  lemma {:induction false} DropBlankImagesAppend(a: seq<string>, b: seq<string>)
    ensures DropBlankImages(a + b) == DropBlankImages(a) + DropBlankImages(b)
  {
    if a == [] {
      assert a + b == b;
    } else {
      assert (a + b)[1..] == a[1..] + b;
      DropBlankImagesAppend(a[1..], b);
    }
  }

  /** The record inserted into `products`; the id and the creation time are assigned by
      the database. */
  function NewListing(f: Form, sellerId: UserId, id: string, now: int): (r: Listing)
    requires f.price.Some?
    ensures r.approvalStatus == Pending && r.sellerId == sellerId
    ensures r.title == f.title && r.description == Some(f.description) && r.price == f.price.value
    ensures r.category == f.category && r.condition == f.condition && r.location == f.location
    ensures forall u :: u in r.images <==> u in f.images && Trim(u) != ""
    ensures |r.images| <= |f.images|
  {
    Listing(id, sellerId, f.title, Some(f.description), f.price.value, f.category, f.condition,
            f.location, DropBlankImages(f.images), Pending, None, now)
  }

  /** A new listing is always one more pending listing for the moderators. */
  lemma SubmissionRaisesPending(products: seq<Listing>, f: Form, sellerId: UserId, id: string, now: int)
    requires f.price.Some?
    ensures Admin.CountPending(products + [NewListing(f, sellerId, id, now)]) == Admin.CountPending(products) + 1
  {
    var r := NewListing(f, sellerId, id, now);
    Admin.CountPendingAppend(products, [r]);
    assert Admin.CountPending([r]) == 1 + Admin.CountPending([r][1..]);
  }

  /** The page's state. */
  class AddProductPage {
    var loading: bool
    var form: Form

    /** One image slot; the selects only ever hold an offered value or nothing. */
    ghost predicate Valid()
      reads this
    {
      && |form.images| == 1
      && (form.category == "" || form.category in Categories)
      && (form.condition == "" || form.condition in Conditions)
    }

    constructor ()
      ensures Valid() && form == EmptyForm && !loading
    {
      form := EmptyForm;
      loading := false;
    }

    /** Typing into the free-text inputs. */
    method EditText(title: string, description: string, price: Option<int>, location: string)
      requires Valid()
      modifies this`form
      ensures Valid()
      ensures form == old(form).(title := title, description := description, price := price, location := location)
    {
      form := form.(title := title, description := description, price := price, location := location);
    }

    method SelectCategory(i: nat)
      requires Valid() && i < |Categories|
      modifies this`form
      ensures Valid() && form == old(form).(category := Categories[i])
    {
      form := form.(category := Categories[i]);
    }

    method SelectCondition(i: nat)
      requires Valid() && i < |Conditions|
      modifies this`form
      ensures Valid() && form == old(form).(condition := Conditions[i])
    {
      form := form.(condition := Conditions[i]);
    }

    /** The image input replaces the single slot. */
    method SetImageUrl(url: string)
      requires Valid()
      modifies this`form
      ensures Valid() && form == old(form).(images := [url])
    {
      form := form.(images := [url]);
    }

    /** `handleSubmit`: without a session nothing is inserted and the user is sent to
        /auth; a failed insert shows an error and stays; a successful one goes to the
        dashboard. Loading is off again on every path. */
    method HandleSubmit(db: Backend, session: Option<UserId>, newId: string, now: int, failed: bool)
      returns (nav: Nav, notice: Notice)
      requires Valid() && RequiredFilled(form)
      modifies this`loading, db`products
      ensures !loading && form == old(form)
      ensures session.None? ==> nav == GoTo(Auth) && notice == ErrorToast && db.products == old(db.products)
      ensures session.Some? && failed ==> nav == Stay && notice == ErrorToast && db.products == old(db.products)
      ensures session.Some? && !failed ==>
        (nav == GoTo(Dashboard) && notice == SuccessToast
         && db.products == old(db.products) + [NewListing(form, session.value, newId, now)])
      ensures db.products != old(db.products) ==>
        (var r := db.products[|db.products| - 1];
         r.approvalStatus == Pending && r.category in Categories && r.condition in Conditions && |r.images| <= 1)
    {
      loading := true;
      if session.None? {
        nav, notice := GoTo(Auth), ErrorToast;
      } else if failed {
        nav, notice := Stay, ErrorToast;
      } else {
        db.products := db.products + [NewListing(form, session.value, newId, now)];
        nav, notice := GoTo(Dashboard), SuccessToast;
      }
      loading := false;
    }

    /** The browser's constraint validation before the submit event: every required
        field filled, and a non-empty image field that parses as a URL (`urlAccepted` is
        the browser's verdict on the image field). */
    predicate Submittable(urlAccepted: bool)
      reads this
    {
      RequiredFilled(form) && (form.images == [] || form.images[0] == "" || urlAccepted)
    }

    /** The form's submit: blocked by the browser while a required field is blank or the
        image field holds something that is not a URL, so no insert is issued; otherwise
        `handleSubmit` runs. */
    method Submit(db: Backend, session: Option<UserId>, newId: string, now: int, failed: bool, urlAccepted: bool)
      returns (nav: Nav, notice: Notice)
      requires Valid()
      modifies this`loading, db`products
      ensures form == old(form)
      ensures !Submittable(urlAccepted) ==>
        (nav == Stay && notice == Silent && db.products == old(db.products) && loading == old(loading))
      ensures Submittable(urlAccepted) ==> !loading
      ensures Submittable(urlAccepted) && session.None? ==>
        (nav == GoTo(Auth) && notice == ErrorToast && db.products == old(db.products))
      ensures Submittable(urlAccepted) && session.Some? && failed ==>
        (nav == Stay && notice == ErrorToast && db.products == old(db.products))
      ensures Submittable(urlAccepted) && session.Some? && !failed ==>
        (nav == GoTo(Dashboard) && notice == SuccessToast
         && db.products == old(db.products) + [NewListing(form, session.value, newId, now)])
    {
      if !Submittable(urlAccepted) {
        nav, notice := Stay, Silent;
      } else {
        nav, notice := HandleSubmit(db, session, newId, now, failed);
      }
    }
  }
}
