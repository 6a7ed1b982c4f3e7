/** The records shared by the pages: users and charging stations. */
module Types {
  import opened Wrappers

  /** A signed-in account. `role` is a string because registration copies
      whatever role text the form holds; the mock accounts use "host",
      "rider" and "admin". `avatar` is optional. */
  datatype User = User(
    id: string,
    email: string,
    name: string,
    phone: string,
    role: string,
    avatar: Option<string>,
    kycVerified: bool,
    rating: real,
    totalReviews: int,
    wallet: int,
    createdAt: string)

  datatype Availability = Available | Busy | Offline {
    /** The text the page compares against its availability filter. */
    function Name(): string {
      match this
      case Available => "available"
      case Busy => "busy"
      case Offline => "offline"
    }
  }

  /** A charging station listing. Reviews and images are display data and
      are not carried. */
  datatype Station = Station(
    id: string,
    hostId: string,
    hostName: string,
    hostRating: real,
    title: string,
    description: string,
    address: string,
    lat: real,
    lng: real,
    socketType: string,
    powerCapacity: real,
    perMinute: real,
    perKwh: real,
    availability: Availability,
    amenities: seq<string>,
    isActive: bool,
    createdAt: string)

  /** `user?.wallet || 0`: the balance shown, 0 when signed out. */
  function WalletBalance(user: Option<User>): (b: int)
    ensures user.None? ==> b == 0
    ensures user.Some? ==> b == user.value.wallet
  {
    if user.None? then 0 else user.value.wallet
  }
}
