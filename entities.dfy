/** The three record kinds held by the storage layer, and the inputs of their create operations. */
module Entities {

  datatype Option<+T> = None | Some(value: T)

  /** JavaScript truthiness of an optional string: present and not the empty string. */
  predicate Truthy(o: Option<string>) {
    o.Some? && o.value != ""
  }

  /** A registered user. `auth` stands for the remaining columns of the user record,
      which are declared outside this component and are only ever copied. */
  datatype User = User(id: int, username: string, auth: string)

  /** The fields a caller supplies to create a user: everything but the id. */
  datatype InsertUser = InsertUser(username: string, auth: string)

  datatype Category = Category(id: int, name: string, slug: string, icon: string, description: Option<string>)

  datatype InsertCategory = InsertCategory(name: string, slug: string, icon: string, description: Option<string>)

  /** A catalogued script. `category` is a category slug by convention only. */
  datatype Script = Script(
    id: int,
    name: string,
    description: string,
    category: string,
    code: string,
    image: Option<string>,
    views: nat,
    downloads: nat,
    rating: int,
    isPopular: bool,
    isNew: bool,
    isFeatured: bool,
    status: string)

  /** The fields a caller supplies to create a script; counters and flags are not among them. */
  datatype InsertScript = InsertScript(
    name: string,
    description: string,
    category: string,
    code: string,
    image: Option<string>,
    status: Option<string>)
}
