/**
  * The two mobile navigation screens: each greets the signed-in user by the
  * time of day and lists the pages they may open. The two screens bucket the
  * hours differently; their menus are the same list.
  */
module Navigation {
  import opened Wrappers
  import opened AuthStore

  /** The greeting of the links screen: four buckets, with night from 21:00 to 04:59. */
  function LinksGreeting(hour: int): (g: string)
    ensures 5 <= hour < 12 <==> g == "Good morning"
    ensures 12 <= hour < 17 <==> g == "Good afternoon"
    ensures 17 <= hour < 21 <==> g == "Good evening"
    ensures hour < 5 || hour >= 21 <==> g == "Good night"
  {
    if hour >= 5 && hour < 12 then "Good morning"
    else if hour >= 12 && hour < 17 then "Good afternoon"
    else if hour >= 17 && hour < 21 then "Good evening"
    else "Good night"
  }

  /** The greeting of the menu screen: three buckets, and never a night greeting. */
  function MenuGreeting(hour: int): (g: string)
    ensures hour < 12 <==> g == "Good morning"
    ensures 12 <= hour < 18 <==> g == "Good afternoon"
    ensures hour >= 18 <==> g == "Good evening"
    ensures g != "Good night"
  {
    if hour < 12 then "Good morning"
    else if hour < 18 then "Good afternoon"
    else "Good evening"
  }

  /**
    * Over the hours of a day the two screens greet alike exactly from 05:00
    * to 16:59 and from 18:00 to 20:59; at 17:00 one says evening and the
    * other afternoon, and before 05:00 or from 21:00 one says night.
    */
  lemma GreetingsAgree(hour: int)
    requires 0 <= hour < 24
    ensures LinksGreeting(hour) == MenuGreeting(hour) <==> 5 <= hour < 17 || 18 <= hour < 21
  {
  }

  datatype MenuItem = MenuItem(title: string, path: string)

  /** Calculator and Quotes for everyone; Users appended for an administrator. */
  function MenuItems(user: Option<AuthUser>): (items: seq<MenuItem>)
    ensures |items| >= 2
    ensures items[0] == MenuItem("Calculator", "/") && items[1] == MenuItem("Quotes", "/quotes")
    ensures |items| == 3 <==> user.Some? && user.value.role == Admin
    ensures |items| == 3 ==> items[2] == MenuItem("Users", "/users")
    ensures |items| <= 3
  {
    [MenuItem("Calculator", "/"), MenuItem("Quotes", "/quotes")]
    + (if user.Some? && user.value.role == Admin then [MenuItem("Users", "/users")] else [])
  }

  /** Signing out leaves only the two pages open to everyone; no two items share a title. */
  lemma MenuOfSignedOut(user: Option<AuthUser>)
    ensures MenuItems(SignedOut.user) == [MenuItem("Calculator", "/"), MenuItem("Quotes", "/quotes")]
    ensures forall i, j :: 0 <= i < j < |MenuItems(user)| ==> MenuItems(user)[i].title != MenuItems(user)[j].title
  {
  }
}
