/** The dashboard greeting of src/components/features/greeting.tsx. */
module Greeting {
  import opened Wrappers
  import opened Strings

  /** The part of the Clerk user the greeting reads. */
  datatype User = User(firstName: Option<string>)

  const DefaultName := "Developer"

  /** `name`: the loaded user's first name when it is non-empty, otherwise "Developer". */
  function GreetingName(isLoaded: bool, user: Option<User>): (name: string)
    ensures |name| > 0
    ensures name != DefaultName ==> isLoaded && user.Some? && user.value.firstName == Some(name)
    ensures isLoaded && user.Some? && Truthy(user.value.firstName) ==> name == user.value.firstName.value
  {
    if isLoaded && user.Some? then
      (if Truthy(user.value.firstName) then user.value.firstName.value else DefaultName)
    else DefaultName
  }

  /** The three parts of the day, split at noon and at six in the evening. */
  datatype DayPart = Morning | Afternoon | Evening

  function Salutation(p: DayPart): string {
    match p
    case Morning => "Good morning, "
    case Afternoon => "Good afternoon, "
    case Evening => "Good evening, "
  }

  /** `getGreeting`, with the clock's hour (`getHours()`, 0 to 23) as input. */
  function GetGreeting(hour: nat, isLoaded: bool, user: Option<User>): (r: string)
    requires hour < 24
    ensures EndsWith(r, GreetingName(isLoaded, user) + "!")
  {
    var name := GreetingName(isLoaded, user);
    var r := if hour < 12 then "Good morning, " + name + "!"
             else if hour < 18 then "Good afternoon, " + name + "!"
             else "Good evening, " + name + "!";
    assert r[|r| - |name + "!"|..] == name + "!";
    r
  }

  /** The part of the day an hour belongs to. */
  function DayPartOf(hour: nat): (p: DayPart)
    requires hour < 24
    ensures p == Morning <==> hour < 12
    ensures p == Afternoon <==> 12 <= hour < 18
    ensures p == Evening <==> 18 <= hour
  {
    if hour < 12 then Morning else if hour < 18 then Afternoon else Evening
  }

  /** Every hour gets exactly one salutation, the one of its part of the day. */
  lemma {:induction false} GreetingPartition(hour: nat, isLoaded: bool, user: Option<User>, p: DayPart)
    requires hour < 24
    ensures StartsWith(GetGreeting(hour, isLoaded, user), Salutation(p)) <==> p == DayPartOf(hour)
  {
    var r := GetGreeting(hour, isLoaded, user);
    var q := DayPartOf(hour);
    var name := GreetingName(isLoaded, user);
    assert r == Salutation(q) + name + "!";
    assert r[..|Salutation(q)|] == Salutation(q);
    // the salutations differ in their sixth character
    assert r[5] == Salutation(q)[5];
    assert Salutation(p)[5] == Salutation(q)[5] ==> p == q;
  }

  /** The name shown can be read back from the greeting: what follows the salutation, without the
      closing "!". */
  function NameIn(greeting: string, hour: nat): string
    requires hour < 24
  {
    var n := |Salutation(DayPartOf(hour))|;
    if n < |greeting| then greeting[n..|greeting| - 1] else ""
  }

  lemma GreetingNameRoundTrip(hour: nat, isLoaded: bool, user: Option<User>)
    requires hour < 24
    ensures NameIn(GetGreeting(hour, isLoaded, user), hour) == GreetingName(isLoaded, user)
  {
    var r := GetGreeting(hour, isLoaded, user);
    var s := Salutation(DayPartOf(hour));
    var name := GreetingName(isLoaded, user);
    assert r == s + name + "!";
    assert r[|s|..|r| - 1] == name;
  }

  /** `Greeting`: "Hello!" until Clerk has loaded, "Welcome, guest!" for a signed-out visitor, the
      time-of-day greeting for a signed-in user. */
  function GreetingText(isLoaded: bool, isSignedIn: bool, hour: nat, user: Option<User>): (r: string)
    requires hour < 24
    ensures r == "Hello!" <==> !isLoaded
    ensures r == "Welcome, guest!" <==> isLoaded && !isSignedIn
    ensures isLoaded && isSignedIn ==> r == GetGreeting(hour, isLoaded, user)
  {
    if !isLoaded then "Hello!"
    else if !isSignedIn then "Welcome, guest!"
    else
      var g := GetGreeting(hour, isLoaded, user);
      assert g[0] == 'G';
      g
  }
}
