/** TestDataGenerator.java. The random sources (`Random.nextInt` and
    `ThreadLocalRandom.nextLong`) and the clock are not modelled: each
    generator takes the values those calls return as parameters, in the order
    the Java code draws them, with the range each call guarantees. */
module TestDataGenerator {
  import opened Wrappers
  import opened Primitives
  import opened Models
  import Text

  const PetNames: seq<string> := ["Max", "Bella", "Charlie", "Lucy", "Cooper", "Luna"]
  const Categories: seq<string> := ["Dogs", "Cats", "Birds", "Fish", "Rabbits"]
  const PhotoUrls: seq<string> := ["http://example.com/photo1.jpg", "http://example.com/photo2.jpg"]

  /** `nextLong(100000, 999999)`: the lower bound is inclusive, the upper one exclusive. */
  const IdOrigin: int := 100000
  const IdBound: int := 999999

  /** The literals `createRandomOrder`, `createInvalidPet` and `createRandomUser` use. */
  const PlacedStatus: string := "placed"
  const InvalidStatus: string := "invalid_status"
  const EmailDomain: string := "@test.com"

  predicate IsId(x: int) { IdOrigin <= x < IdBound }

  predicate IsIdOf(x: Option<Long>) { x.Some? && IsId(x.value) }

  /** The values `createRandomPet` draws, in draw order: the pet id, the
      index into PetNames, the category id, the index into Categories, the
      tag id and the tag number. */
  datatype PetDraws = PetDraws(
    petId: int, nameIndex: int, categoryId: int, categoryIndex: int, tagId: int, tagNumber: int)

  predicate ValidPetDraws(d: PetDraws) {
    && IsId(d.petId) && 0 <= d.nameIndex < |PetNames|
    && IsId(d.categoryId) && 0 <= d.categoryIndex < |Categories|
    && IsId(d.tagId) && 0 <= d.tagNumber < 100
  }

  /** `generateRandomId`: a long in [100000, 999999). */
  function GenerateRandomId(draw: int): (id: Long)
    requires IsId(draw)
    ensures IdOrigin <= id < IdBound
  {
    draw
  }

  /** `getRandomPetName`. */
  function GetRandomPetName(index: int): (name: string)
    requires 0 <= index < |PetNames|
    ensures name in PetNames
  {
    PetNames[index]
  }

  /** `createRandomCategory`. */
  function CreateRandomCategory(idDraw: int, index: int): (c: Category)
    requires IsId(idDraw) && 0 <= index < |Categories|
    ensures IsIdOf(c.id)
    ensures c.name.Some? && c.name.value in Categories
  {
    Category(Some(GenerateRandomId(idDraw)), Some(Categories[index]))
  }

  /** The tag name: "tag" and the decimal form of the draw. */
  function TagName(number: nat): (name: string)
    requires number < 100
    ensures |name| == 4 || |name| == 5
    ensures Text.StartsWith(name, "tag") && Text.AllDigits(name[3..])
  {
    Text.NatToStringLength(number, if number < 10 then 1 else 2);
    var name := "tag" + Text.NatToString(number);
    assert name[..3] == "tag" && name[3..] == Text.NatToString(number);
    name
  }

  /** `createRandomTag`. */
  function CreateRandomTag(idDraw: int, number: int): (t: Tag)
    requires IsId(idDraw) && 0 <= number < 100
    ensures IsIdOf(t.id)
    ensures t.name == Some(TagName(number))
    ensures Text.DigitsValue(t.name.value[3..]) == number
  {
    var name := TagName(number);
    assert name[3..] == Text.NatToString(number);
    Text.NatToStringValue(number);
    Tag(Some(GenerateRandomId(idDraw)), Some(name))
  }

  /** `createRandomPet`. */
  function CreateRandomPet(d: PetDraws): (p: Pet)
    requires ValidPetDraws(d)
    ensures IsIdOf(p.id)
    ensures p.name.Some? && p.name.value in PetNames
    ensures p.category.Some? && IsIdOf(p.category.value.id)
    ensures p.category.value.name.Some? && p.category.value.name.value in Categories
    ensures p.photoUrls == Some(["http://example.com/photo1.jpg", "http://example.com/photo2.jpg"])
    ensures p.tags.Some? && |p.tags.value| == 1 && IsIdOf(p.tags.value[0].id)
    ensures p.tags.value[0].name == Some(TagName(d.tagNumber))
    ensures p.status == Some(GetValue(Available)) == Some("available")
  {
    Pet(
      id := Some(GenerateRandomId(d.petId)),
      category := Some(CreateRandomCategory(d.categoryId, d.categoryIndex)),
      name := Some(GetRandomPetName(d.nameIndex)),
      photoUrls := Some(PhotoUrls),
      tags := Some([CreateRandomTag(d.tagId, d.tagNumber)]),
      status := Some(GetValue(Available)))
  }

  /** Every random pet meets the remote contract: its status is one of the
      three values and it has a non-empty list of photo URLs. */
  lemma RandomPetMeetsContract(d: PetDraws)
    requires ValidPetDraws(d)
    ensures MeetsPetContract(CreateRandomPet(d))
    ensures |CreateRandomPet(d).photoUrls.value| > 0
    ensures exists st: Status :: CreateRandomPet(d).status == Some(GetValue(st))
  {
    assert CreateRandomPet(d).status == Some(GetValue(Available));
  }

  /** The values `createRandomUser` draws, in draw order: the id written into
      the username, then the user's id. They are separate draws. */
  datatype UserDraws = UserDraws(usernameId: int, userId: int)

  predicate ValidUserDraws(d: UserDraws) { IsId(d.usernameId) && IsId(d.userId) }

  /** The username: "user" and the decimal form of the draw. */
  function Username(draw: int): (u: string)
    requires IsId(draw)
    ensures |u| == 10 && Text.StartsWith(u, "user")
    ensures Text.AllDigits(u[4..]) && Text.DigitsValue(u[4..]) == draw
  {
    Text.NatToStringLength(draw, 6);
    Text.NatToStringValue(draw);
    var u := "user" + Text.NatToString(draw);
    assert u[..4] == "user" && u[4..] == Text.NatToString(draw);
    u
  }

  /** `createRandomUser`. */
  function CreateRandomUser(d: UserDraws): (u: User)
    requires ValidUserDraws(d)
    ensures IsIdOf(u.id) && u.id == Some(d.userId)
    ensures u.username == Some(Username(d.usernameId))
    ensures u.email == Some(u.username.value + "@test.com")
    ensures u.firstName == Some("Test") && u.lastName == Some("User")
    ensures u.password == Some("password123") && u.phone == Some("1234567890")
    ensures u.userStatus == Some(1)
  {
    var username := Username(d.usernameId);
    User(
      id := Some(GenerateRandomId(d.userId)),
      username := Some(username),
      firstName := Some("Test"),
      lastName := Some("User"),
      email := Some(username + EmailDomain),
      password := Some("password123"),
      phone := Some("1234567890"),
      userStatus := Some(1))
  }

  /** Distinct username draws give distinct usernames and distinct emails. */
  lemma UsernamesDistinct(d1: UserDraws, d2: UserDraws)
    requires ValidUserDraws(d1) && ValidUserDraws(d2)
    requires d1.usernameId != d2.usernameId
    ensures CreateRandomUser(d1).username != CreateRandomUser(d2).username
    ensures CreateRandomUser(d1).email != CreateRandomUser(d2).email
  {
    var u1, u2 := Username(d1.usernameId), Username(d2.usernameId);
    assert (u1 + EmailDomain)[..10] == u1 && (u2 + EmailDomain)[..10] == u2;
  }

  /** The number in the username is not the user's id: the two are separate
      draws, and the username depends on the first one only. */
  lemma UsernameIndependentOfId(d: UserDraws, otherId: int)
    requires ValidUserDraws(d) && IsId(otherId)
    ensures CreateRandomUser(d).username == CreateRandomUser(d.(userId := otherId)).username
    ensures Text.DigitsValue(CreateRandomUser(d).username.value[4..]) == d.usernameId
    ensures d.usernameId != d.userId ==>
      Text.DigitsValue(CreateRandomUser(d).username.value[4..]) != CreateRandomUser(d).id.value
  {
  }

  /** The values `createRandomOrder` draws: the order id, the pet id and the
      result of `nextInt(5)`. */
  datatype OrderDraws = OrderDraws(orderId: int, petId: int, quantityDraw: int)

  predicate ValidOrderDraws(d: OrderDraws) {
    IsId(d.orderId) && IsId(d.petId) && 0 <= d.quantityDraw < 5
  }

  /** `createRandomOrder`; `shipDate` is the text of the current date, given
      here as a parameter. */
  function CreateRandomOrder(d: OrderDraws, shipDate: string): (o: Order)
    requires ValidOrderDraws(d)
    ensures IsIdOf(o.id) && IsIdOf(o.petId)
    ensures o.quantity.Some? && 1 <= o.quantity.value <= 5
    ensures o.shipDate == Some(shipDate)
    ensures o.status == Some("placed") && o.complete == Some(false)
  {
    Order(
      id := Some(GenerateRandomId(d.orderId)),
      petId := Some(GenerateRandomId(d.petId)),
      quantity := Some(d.quantityDraw + 1),
      shipDate := Some(shipDate),
      status := Some(PlacedStatus),
      complete := Some(false))
  }

  /** `createInvalidPet`. */
  function CreateInvalidPet(): (p: Pet)
    ensures p.id == Some(-1) && p.name == Some("")
    ensures p.photoUrls.None? && p.category.None? && p.tags.None?
    ensures p.status == Some("invalid_status")
  {
    PetBuilder().(id := Some(-1), name := Some(""), photoUrls := None, status := Some(InvalidStatus))
  }

  /** The invalid pet breaks the remote contract twice over: its photo URLs
      are absent and its status is none of the `Pet.Status` values. Its id is
      outside the range of generated ids. */
  lemma InvalidPetBreaksContract()
    ensures !MeetsPetContract(CreateInvalidPet())
    ensures CreateInvalidPet().photoUrls.None?
    ensures forall st: Status :: CreateInvalidPet().status != Some(GetValue(st))
    ensures !IsIdOf(CreateInvalidPet().id)
  {
    IsStatusValueIff(InvalidStatus);
  }
}
