/** Records shared by the pages, and the hosted backend's tables as in-memory sequences.
    Rows carry only the columns the page logic reads or writes. */
module Market {

  datatype Option<T> = None | Some(value: T) {
    /** `x || fallback` on an optional value. */
    function GetOr(fallback: T): T {
      match this
      case Some(v) => v
      case None => fallback
    }
  }

  type UserId = string

  /** The moderation state of a listing (`approval_status`). */
  datatype ApprovalStatus = Pending | Approved | Rejected

  /** A row of the `products` table. `description` and `viewsCount` may be missing;
      prices and timestamps are whole numbers. */
  datatype Listing = Listing(
    id: string,
    sellerId: UserId,
    title: string,
    description: Option<string>,
    price: int,
    category: string,
    condition: string,
    location: string,
    images: seq<string>,
    approvalStatus: ApprovalStatus,
    viewsCount: Option<nat>,
    createdAt: int)

  /** `views_count || 0`: a missing counter reads as zero. */
  function Views(p: Listing): (r: nat)
    ensures p.viewsCount.None? ==> r == 0
    ensures p.viewsCount.Some? ==> r == p.viewsCount.value
  {
    p.viewsCount.GetOr(0)
  }

  /** A row of the `profiles` table. */
  datatype Profile = Profile(id: UserId, fullName: Option<string>)

  /** The state of a row of `reported_products`. */
  datatype ReportStatus = ReportPending | ReportResolved

  /** A row of the `reported_products` table. */
  datatype Report = Report(
    id: string,
    productId: string,
    reporterId: UserId,
    reason: string,
    status: ReportStatus,
    resolvedAt: Option<int>,
    resolvedBy: Option<UserId>)

  /** A row of the `conversations` table: one buyer and one seller around one listing. */
  datatype Conversation = Conversation(id: string, productId: string, buyerId: UserId, sellerId: UserId)

  /** A row of the `messages` table; rows are listed in the order they were created. */
  datatype Message = Message(id: string, conversationId: string, senderId: UserId, content: string)

  /** Client-side routes the pages navigate to. */
  datatype Route = Home | Auth | Dashboard | ChatRoute(conversationId: string)

  /** Where a handler leaves the user: on the same page, or sent to a route. */
  datatype Nav = Stay | GoTo(route: Route)

  /** The kind of toast a handler shows; the message texts are not modelled. */
  datatype Notice = Silent | InfoToast | SuccessToast | ErrorToast

  /** The hosted database, as the tables the pages read and write. */
  class Backend {
    var profiles: seq<Profile>
    var products: seq<Listing>
    var reports: seq<Report>
    var conversations: seq<Conversation>
    var messages: seq<Message>

    constructor (profiles: seq<Profile>, products: seq<Listing>, reports: seq<Report>,
                 conversations: seq<Conversation>, messages: seq<Message>)
      ensures this.profiles == profiles && this.products == products
      ensures this.reports == reports && this.conversations == conversations
      ensures this.messages == messages
    {
      this.profiles := profiles;
      this.products := products;
      this.reports := reports;
      this.conversations := conversations;
      this.messages := messages;
    }
  }
}
