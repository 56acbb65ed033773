/**
 * The two chat messages sent to the completion service: a fixed system instruction
 * that forbids using anything but the supplied data, and a user instruction that
 * names the trip and quotes the three rendered catalog sections under headings.
 */
module Prompt {
  import opened Wrappers
  import opened Js
  import opened Catalog

  /** The request body's fields; a field the body lacks is `Undefined`. */
  datatype TripRequest = TripRequest(province: JsValue, style: JsValue, budget: JsValue, days: JsValue)

  datatype Role = System | User

  datatype Message = Message(role: Role, content: string)

  /** The assistant's persona: a trip planner that uses only the supplied data and invents nothing. */
  const SystemInstruction: string :=
    "คุณคือผู้ช่วยวางแผนเที่ยวที่ใช้เฉพาะข้อมูลจาก Supabase ที่ให้ไว้เท่านั้น ห้ามแต่งเพิ่มเอง"

  /** The fixed words of the request line, around the four interpolated fields. */
  const TripTo: string := "วางแผนเที่ยว **"
  const StyleLabel: string := "** แบบ **"
  const DaysLabel: string := "** จำนวน **"
  const BudgetLabel: string := " วัน** ด้วยงบประมาณระดับ **"
  const Emphasis: string := "**"

  /** "Plan a trip to <province>, <style> style, <days> days, on a <budget> budget". */
  function RequestLine(req: TripRequest): string {
    TripTo + Text(req.province) + StyleLabel + Text(req.style) + DaysLabel + Text(req.days) + BudgetLabel + Text(req.budget) + Emphasis
  }

  /**
   * The text of each field stands verbatim in the request line, in the order
   * province, style, days, budget, each between its fixed labels.
   */
  lemma RequestLineFields(req: TripRequest)
    ensures var l, province, style, days := RequestLine(req), Text(req.province), Text(req.style), Text(req.days);
      var styleAt := |TripTo| + |province| + |StyleLabel|;
      var daysAt := styleAt + |style| + |DaysLabel|;
      var budgetAt := daysAt + |days| + |BudgetLabel|;
      && Occurs(province, l, |TripTo|)
      && Occurs(style, l, styleAt)
      && Occurs(days, l, daysAt)
      && Occurs(Text(req.budget), l, budgetAt)
      && |l| == budgetAt + |Text(req.budget)| + |Emphasis|
  {
    FourHoles(TripTo, Text(req.province), StyleLabel, Text(req.style), DaysLabel, Text(req.days), BudgetLabel, Text(req.budget), Emphasis);
  }

  /** Everything before the activities section: the request line, "use only these items:", the activities heading. */
  function Preamble(req: TripRequest): string {
    "\n" + RequestLine(req) + ActivityHeading
  }

  /** "Use only items from these lists:", then the activities heading. */
  const ActivityHeading: string := "\n\n" + "✅ ใช้เฉพาะจากรายการเหล่านี้เท่านั้น:" + "\n\n" + "🧭 **กิจกรรม**" + "\n"

  const RestaurantHeading: string := "\n\n" + "🍛 **ร้านอาหาร**" + "\n"

  const HotelHeading: string := "\n\n" + "🏨 **โรงแรม**" + "\n"

  /** Morning/afternoon/evening for every day, nothing outside the lists, a readable summary; then the literal's closing indentation. */
  const Directives: string :=
    "\n\n" +
    "📌 โปรดแบ่งแผนเป็น **เช้า / บ่าย / เย็น** สำหรับแต่ละวัน  " + "\n" +
    "📌 ห้ามเพิ่มสถานที่หรือกิจกรรมอื่นนอกเหนือจากนี้  " + "\n" +
    "📌 สรุปแผนให้อ่านง่าย" + "\n" +
    "          "

  /** The user template with the three sections interpolated. */
  function UserInstruction(req: TripRequest, activityText: string, restaurantText: string, hotelText: string): string {
    Preamble(req) + activityText + RestaurantHeading + restaurantText + HotelHeading + hotelText + Directives
  }

  /** The conversation: the fixed system instruction first, then the user instruction. */
  function Messages(req: TripRequest, activityText: string, restaurantText: string, hotelText: string): seq<Message> {
    [Message(System, SystemInstruction), Message(User, UserInstruction(req, activityText, restaurantText, hotelText))]
  }

  /** The conversation built from the three row lists the data store returned. */
  function CatalogMessages(req: TripRequest, activities: Option<seq<Row>>, restaurants: Option<seq<Row>>, hotels: Option<seq<Row>>): seq<Message> {
    Messages(req, Render(activities, Activities), Render(restaurants, Restaurants), Render(hotels, Hotels))
  }

  /**
   * The conversation has two messages, the system instruction and then a user
   * message that quotes each of the three sections verbatim, in order.
   */
  lemma MessagesQuoteSections(req: TripRequest, a: string, r: string, h: string)
    ensures var m := Messages(req, a, r, h);
      && |m| == 2 && m[0] == Message(System, SystemInstruction) && m[1].role == User
      && Occurs(a, m[1].content, ActivityOffset(req))
      && Occurs(r, m[1].content, RestaurantOffset(req, a))
      && Occurs(h, m[1].content, HotelOffset(req, a, r))
  {
    SectionsInOrder(req, a, r, h);
  }

  /**
   * The user message built from a catalog quotes the activities, restaurants and
   * hotels sections as rendered, and so the placeholder sentence of each category
   * that had no rows.
   */
  lemma CatalogMessagesQuoteSections(req: TripRequest, activities: Option<seq<Row>>, restaurants: Option<seq<Row>>, hotels: Option<seq<Row>>)
    ensures var m := CatalogMessages(req, activities, restaurants, hotels);
      var a, r := Render(activities, Activities), Render(restaurants, Restaurants);
      && |m| == 2 && m[0] == Message(System, SystemInstruction) && m[1].role == User
      && Occurs(a, m[1].content, ActivityOffset(req))
      && Occurs(r, m[1].content, RestaurantOffset(req, a))
      && Occurs(Render(hotels, Hotels), m[1].content, HotelOffset(req, a, r))
  {
    MessagesQuoteSections(req, Render(activities, Activities), Render(restaurants, Restaurants), Render(hotels, Hotels));
  }

  /** The system message does not depend on the request or on the catalog. */
  lemma SystemInstructionFixed(req: TripRequest, a: string, r: string, h: string, req': TripRequest, a': string, r': string, h': string)
    ensures Messages(req, a, r, h)[0] == Messages(req', a', r', h')[0] == Message(System, SystemInstruction)
  {
  }

  /** Where each section starts in the user instruction. */
  function ActivityOffset(req: TripRequest): nat {
    |Preamble(req)|
  }

  function RestaurantOffset(req: TripRequest, activityText: string): nat {
    ActivityOffset(req) + |activityText| + |RestaurantHeading|
  }

  function HotelOffset(req: TripRequest, activityText: string, restaurantText: string): nat {
    RestaurantOffset(req, activityText) + |restaurantText| + |HotelHeading|
  }

  /**
   * The user instruction opens with a newline and the request line, then quotes the
   * activities, restaurants and hotels sections, each verbatim, in that order and
   * without overlapping, and closes with the fixed directives.
   */
  lemma SectionsInOrder(req: TripRequest, a: string, r: string, h: string)
    ensures var u := UserInstruction(req, a, r, h);
      u[0] == '\n' &&
      Occurs(RequestLine(req), u, 1) &&
      1 + |RequestLine(req)| < ActivityOffset(req) &&
      Occurs(a, u, ActivityOffset(req)) &&
      ActivityOffset(req) + |a| < RestaurantOffset(req, a) &&
      Occurs(r, u, RestaurantOffset(req, a)) &&
      RestaurantOffset(req, a) + |r| < HotelOffset(req, a, r) &&
      Occurs(h, u, HotelOffset(req, a, r)) &&
      Occurs(Directives, u, |u| - |Directives|)
  {
    assert ActivityHeading[0] == RestaurantHeading[0] == HotelHeading[0] == '\n';
    ThreeHoles("\n", RequestLine(req), ActivityHeading, a, RestaurantHeading, r, HotelHeading, h, Directives);
  }

  /** The rows of one category. */
  function RowsOf(c: Category, activities: Option<seq<Row>>, restaurants: Option<seq<Row>>, hotels: Option<seq<Row>>): Option<seq<Row>> {
    match c
    case Activities => activities
    case Restaurants => restaurants
    case Hotels => hotels
  }

  /** Grounding is inspectable: the user message quotes every row's line of every category verbatim. */
  lemma LineGrounded(req: TripRequest, activities: Option<seq<Row>>, restaurants: Option<seq<Row>>, hotels: Option<seq<Row>>, c: Category, i: nat)
    requires RowsOf(c, activities, restaurants, hotels).Some?
    requires i < |RowsOf(c, activities, restaurants, hotels).value|
    ensures var rows := RowsOf(c, activities, restaurants, hotels).value;
      var m := CatalogMessages(req, activities, restaurants, hotels);
      m[1].role == User && Includes(m[1].content, Line(rows[i]))
  {
    var rows := RowsOf(c, activities, restaurants, hotels).value;
    var m := CatalogMessages(req, activities, restaurants, hotels);
    var a, r := Render(activities, Activities), Render(restaurants, Restaurants);
    CatalogMessagesQuoteSections(req, activities, restaurants, hotels);
    LineInSection(rows, c, i);
    var at := match c
      case Activities => ActivityOffset(req)
      case Restaurants => RestaurantOffset(req, a)
      case Hotels => HotelOffset(req, a, r);
    assert Occurs(Render(Some(rows), c), m[1].content, at);
    OccursWithin(Line(rows[i]), Render(Some(rows), c), m[1].content, PartOffset(Lines(rows), "\n", i), at);
  }
}
