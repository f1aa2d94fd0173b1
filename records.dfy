/**
 * Records of the `goods` collection that several pages share, and the
 * JavaScript truthiness of the price a seller types in.
 */
module Records {

  /** A price as the pages hold it: absent, a number, or the text of an input field. */
  datatype Price = Missing | Num(amount: int) | Text(text: string)

  /** JavaScript truthiness: `undefined`, `0` and `''` are falsy. */
  predicate Truthy(p: Price)
  {
    match p
    case Missing => false
    case Num(n) => n != 0
    case Text(t) => t != ""
  }

  /**
   * A book on sale (a record of the `goods` collection). `postDate` is the
   * post time in milliseconds; `state` is 0 while it is free and 1 once booked.
   */
  datatype Goods = Goods(
    id: string,
    openid: string,
    name: string,
    isbn: string,
    introduction: string,
    postDate: int,
    price: Price,
    originalPrice: Price,
    grade: string,
    college: string,
    state: int,
    imageList: seq<string>)
}
