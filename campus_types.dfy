/**
 * The app's record types: the event records the campus events API returns,
 * the deep-link records of the service tiles, the quick links of the home
 * screen, and the platform the app runs on.
 *
 * Optional fields the screens only test for truthiness are modelled by their
 * falsy value: an absent `name` or `imagePath` is "", an absent `isVirtual`
 * is false and an absent `categories` list is []. Fields the screens tell apart from their
 * falsy value, or read through `?.`, are `Option`s.
 */
module CampusTypes {
  import opened Wrappers

  /** `Platform.OS` as React Native reports it. */
  datatype Platform = IOS | Android | Web | Windows | MacOS

  datatype Category = Category(id: int, name: string)

  datatype Organization = Organization(id: int, name: string, profilePicture: Option<string>)

  datatype Location = Location(
    name: string,
    address: Option<string>,
    isVirtual: bool,
    virtualLink: Option<string>)

  datatype CampusEvent = CampusEvent(
    id: int,
    name: string,
    description: string,
    startsOn: string,
    endsOn: string,
    imagePath: string,
    location: Location,
    categories: seq<Category>,
    organization: Option<Organization>)

  /** The store web pages of an app, per platform, and an optional plain web site. */
  datatype WebLink = WebLink(ios: string, android: string, browser: Option<string>)

  /** `web: string | WebLink`. */
  datatype WebTarget = WebUrl(url: string) | WebLinks(links: WebLink)

  /** Store deep links of an app and where to go on the web instead. */
  datatype AppLink = AppLink(ios: string, android: string, web: WebTarget)

  datatype QuickLink = QuickLink(title: string, icon: string, link: string)

  /** What an event card shows, apart from the formatted dates: the image (if
      any), the title, the location line, the organization row (if any), the
      category chips and the page the card opens when pressed. */
  datatype Card = Card(
    image: Option<string>,
    title: string,
    location: string,
    organization: Option<string>,
    categories: seq<Category>,
    link: string)
}
