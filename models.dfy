/** The domain records exchanged with the pet store (Pet.java, Order.java,
    and the User, Category and Tag records the generator builds). Every field
    of these Lombok records is a boxed Java reference that the builder leaves
    null unless it is given, so every field is an Option here. */
module Models {
  import opened Wrappers
  import opened Primitives

  /** The constants of `Pet.Status`. */
  datatype Status = Available | Pending | Sold

  /** `Pet.Status.getValue()`: the wire string each constant is built with. */
  function GetValue(status: Status): (v: string)
    ensures IsStatusValue(v)
  {
    match status
    case Available => "available"
    case Pending => "pending"
    case Sold => "sold"
  }

  /** The three wire strings of `Pet.Status`. */
  predicate IsStatusValue(s: string) {
    s == "available" || s == "pending" || s == "sold"
  }

  /** The table of `Pet.Status`: each constant with its string. */
  lemma StatusTable()
    ensures GetValue(Available) == "available"
    ensures GetValue(Pending) == "pending"
    ensures GetValue(Sold) == "sold"
  {
  }

  /** Distinct constants have distinct wire strings. */
  lemma GetValueInjective(a: Status, b: Status)
    ensures GetValue(a) == GetValue(b) ==> a == b
  {
  }

  /** A string is a status value exactly when some constant has it. */
  lemma IsStatusValueIff(s: string)
    ensures IsStatusValue(s) <==> exists st: Status :: GetValue(st) == s
  {
    if s == "available" { assert GetValue(Available) == s; }
    if s == "pending" { assert GetValue(Pending) == s; }
    if s == "sold" { assert GetValue(Sold) == s; }
  }

  datatype Category = Category(id: Option<Long>, name: Option<string>)

  datatype Tag = Tag(id: Option<Long>, name: Option<string>)

  /** `Pet`: its status is a plain string, not a `Status`, so any string can
      be stored in it. */
  datatype Pet = Pet(
    id: Option<Long>,
    category: Option<Category>,
    name: Option<string>,
    photoUrls: Option<seq<string>>,
    tags: Option<seq<Tag>>,
    status: Option<string>)

  /** `Order`. */
  datatype Order = Order(
    id: Option<Long>,
    petId: Option<Long>,
    quantity: Option<Int>,
    shipDate: Option<string>,
    status: Option<string>,
    complete: Option<bool>)

  /** `User`. */
  datatype User = User(
    id: Option<Long>,
    username: Option<string>,
    firstName: Option<string>,
    lastName: Option<string>,
    email: Option<string>,
    password: Option<string>,
    phone: Option<string>,
    userStatus: Option<Int>)

  /** `Pet.builder().build()`: the builder leaves every field it is not
      given absent; a builder call `.name(x)` is the update `.(name := Some(x))`. */
  function PetBuilder(): (p: Pet)
    ensures p.id.None? && p.category.None? && p.name.None?
    ensures p.photoUrls.None? && p.tags.None? && p.status.None?
  {
    Pet(None, None, None, None, None, None)
  }

  /** The remote contract for a pet: name and photo URLs are required, and a
      status, when present, is one of the three wire strings. The harness
      does not enforce it locally. */
  predicate MeetsPetContract(p: Pet) {
    && p.name.Some?
    && p.photoUrls.Some?
    && (p.status.Some? ==> IsStatusValue(p.status.value))
  }

  /** A pet built with only a name, as the test for missing required fields
      builds it, has no photo URLs and so breaks the remote contract. */
  lemma NameOnlyPetLacksPhotoUrls(name: string)
    ensures PetBuilder().(name := Some(name)).photoUrls.None?
    ensures !MeetsPetContract(PetBuilder().(name := Some(name)))
  {
  }
}
