/**
 * The cart page: the join of cart records with their goods, removal of an
 * item from the displayed list, and the login popup and list state.
 */
module Cart {
  import opened Wrappers
  import opened Query
  import opened Records

  /** A record of the `cart` collection: the owner's openid and the goods put in the cart. */
  datatype CartRecord = CartRecord(id: string, openid: string, goodsId: string)

  /** A displayed cart item: every field of the cart record, plus the goods it refers to. */
  datatype CartEntry = CartEntry(record: CartRecord, bookDetail: Option<Goods>)

  /** The goods whose `_id` is `id`: the first answer of `where({_id: id})`, or `undefined`. */
  function GoodsById(goods: seq<Goods>, id: string): (r: Option<Goods>)
    ensures r.Some? ==> r.value in goods && r.value.id == id
    ensures r.None? <==> forall g :: g in goods ==> g.id != id
  {
    First(Where(goods, (g: Goods) => g.id == id))
  }

  /**
   * The list `getCartList` builds: cart record i, spread, with `bookDetail`
   * set to the answer of the i-th goods query.
   */
  function JoinCart(records: seq<CartRecord>, goods: seq<Goods>): (r: seq<CartEntry>)
    ensures |r| == |records|
    ensures forall i :: 0 <= i < |r| ==> r[i].record == records[i]
    ensures forall i :: 0 <= i < |r| && r[i].bookDetail.Some? ==>
      r[i].bookDetail.value in goods && r[i].bookDetail.value.id == records[i].goodsId
  {
    seq(|records|, i requires 0 <= i < |records| => CartEntry(records[i], GoodsById(goods, records[i].goodsId)))
  }

  /**
   * The join keeps the cart records' length and order; element i carries
   * cart record i and the first goods record whose `_id` is its `goods_id`,
   * or nothing when there is none.
   */
  lemma JoinCartMatchesGoods(records: seq<CartRecord>, goods: seq<Goods>, i: nat, k: nat)
    requires i < |records|
    requires k < |goods| && goods[k].id == records[i].goodsId
    requires forall j :: 0 <= j < k ==> goods[j].id != records[i].goodsId
    ensures JoinCart(records, goods)[i] == CartEntry(records[i], Some(goods[k]))
  {
    FirstOfWhere(goods, (g: Goods) => g.id == records[i].goodsId, k);
  }

  lemma JoinCartWithoutGoods(records: seq<CartRecord>, goods: seq<Goods>, i: nat)
    requires i < |records|
    requires forall g :: g in goods ==> g.id != records[i].goodsId
    ensures JoinCart(records, goods)[i] == CartEntry(records[i], None)
  {
  }

  /** The cart records of one user: `where({_openid: owner})`. */
  function CartOf(cart: seq<CartRecord>, owner: string): (r: seq<CartRecord>)
    ensures forall x :: x in r <==> x in cart && x.openid == owner
  {
    Where(cart, (x: CartRecord) => x.openid == owner)
  }

  /** `findIndex(i => i._id === id)`: the first index with that `_id`, or -1. */
  function FindIndexOf(s: seq<CartEntry>, id: string): (r: int)
    ensures -1 <= r < |s|
    ensures r >= 0 ==> s[r].record.id == id && forall j :: 0 <= j < r ==> s[j].record.id != id
    ensures r == -1 <==> forall j :: 0 <= j < |s| ==> s[j].record.id != id
  {
    if s == [] then -1
    else if s[0].record.id == id then 0
    else
      var k := FindIndexOf(s[1..], id);
      if k == -1 then -1 else k + 1
  }

  /** The index `splice(start, 1)` starts at: a negative start counts from the end. */
  function SpliceStart(len: nat, start: int): (k: nat)
    ensures k <= len
    ensures 0 <= start <= len ==> k == start
    ensures start < 0 && 0 <= len + start ==> k == len + start
    ensures len + start < 0 ==> k == 0
  {
    if start < 0 then (if len + start < 0 then 0 else len + start)
    else if start < len then start else len
  }

  /**
   * `splice(start, 1)` on a list with contents `s`: the element at the
   * resolved start is taken out and the later ones move down by one; a start
   * past the end removes nothing.
   */
  function Spliced<T>(s: seq<T>, start: int): (r: seq<T>)
    ensures var k := SpliceStart(|s|, start);
      && (k < |s| ==>
            && |r| == |s| - 1
            && (forall j :: 0 <= j < k ==> r[j] == s[j])
            && (forall j :: k <= j < |r| ==> r[j] == s[j + 1])
            && multiset(r) + multiset{s[k]} == multiset(s))
      && (k == |s| ==> r == s)
  {
    var k := SpliceStart(|s|, start);
    if k < |s| then
      assert s == s[..k] + [s[k]] + s[k + 1..];
      s[..k] + s[k + 1..]
    else s
  }

  /** The list after `deleteGoods`: `splice(findIndex(...), 1)`. */
  function AfterDelete(s: seq<CartEntry>, id: string): seq<CartEntry>
  {
    Spliced(s, FindIndexOf(s, id))
  }

  /**
   * When some item has the `_id`, exactly the first such item is removed and
   * the others keep their order.
   */
  lemma DeleteRemovesFirstMatch(s: seq<CartEntry>, id: string, i: nat)
    requires i < |s| && s[i].record.id == id
    requires forall j :: 0 <= j < i ==> s[j].record.id != id
    ensures AfterDelete(s, id) == s[..i] + s[i + 1..]
    ensures |AfterDelete(s, id)| == |s| - 1
  {
    assert FindIndexOf(s, id) != -1;
  }

  /**
   * When no item has the `_id`, `findIndex` gives -1 and `splice(-1, 1)`
   * removes the last item; an empty list stays empty.
   */
  lemma DeleteWithoutMatchDropsLast(s: seq<CartEntry>, id: string)
    requires forall j :: 0 <= j < |s| ==> s[j].record.id != id
    ensures s != [] ==> AfterDelete(s, id) == s[..|s| - 1]
    ensures s == [] ==> AfterDelete(s, id) == []
  {
    assert FindIndexOf(s, id) == -1;
    if s != [] {
      assert SpliceStart(|s|, -1) == |s| - 1;
      assert s[|s|..] == [];
    }
  }

  /** The JavaScript array held in `data.cartList`: one object that every alias sees. */
  class CartArray {
    var elems: seq<CartEntry>

    constructor (s: seq<CartEntry>)
      ensures elems == s
    {
      elems := s;
    }

    /** `findIndex(i => i._id === id)` */
    method FindIndex(id: string) returns (index: int)
      ensures index == FindIndexOf(elems, id)
    {
      index := 0;
      while index < |elems|
        invariant 0 <= index <= |elems|
        invariant forall j :: 0 <= j < index ==> elems[j].record.id != id
      {
        if elems[index].record.id == id {
          assert FindIndexOf(elems, id) != -1;
          return;
        }
        index := index + 1;
      }
      index := -1;
    }

    /** `splice(start, 1)`, in place. */
    method Splice(start: int)
      modifies this
      ensures elems == Spliced(old(elems), start)
    {
      var k := SpliceStart(|elems|, start);
      if k < |elems| {
        elems := elems[..k] + elems[k + 1..];
      }
    }
  }

  /** `cartList` of the page data: `''` before loading and after hiding, else the list. */
  datatype CartListField = Blank | Loaded(list: CartArray)

  /** The state of the cart page. */
  class CartPage {
    var userInfo: string
    var userOpenid: string
    var showNoLoginPopup: bool
    var cartList: CartListField

    constructor ()
      ensures userInfo == "" && userOpenid == "" && !showNoLoginPopup && cartList == Blank
    {
      userInfo := "";
      userOpenid := "";
      showNoLoginPopup := false;
      cartList := Blank;
    }

    /**
     * `onShow`: copies the global user state; when not logged in, shows the
     * login popup and loads nothing, otherwise loads the cart list.
     */
    method OnShow(globalUserInfo: string, globalUserOpenid: string, loggedIn: bool,
                  owner: string, cart: seq<CartRecord>, goods: seq<Goods>)
      modifies this
      ensures userInfo == globalUserInfo && userOpenid == globalUserOpenid
      ensures !loggedIn ==> showNoLoginPopup && cartList == old(cartList)
      ensures loggedIn ==> showNoLoginPopup == old(showNoLoginPopup)
      ensures loggedIn ==> cartList.Loaded? && fresh(cartList.list) &&
                           cartList.list.elems == JoinCart(CartOf(cart, owner), goods)
    {
      userInfo := globalUserInfo;
      userOpenid := globalUserOpenid;
      if !loggedIn {
        showNoLoginPopup := true;
      } else {
        GetCartList(owner, cart, goods);
      }
    }

    /** `onHide`: closes the popup and resets `cartList` to `''`. */
    method OnHide()
      modifies this
      ensures !showNoLoginPopup && cartList == Blank
      ensures userInfo == old(userInfo) && userOpenid == old(userOpenid)
    {
      CloseNoLoginPopup();
      cartList := Blank;
    }

    method ShowNoLoginPopup()
      modifies this`showNoLoginPopup
      ensures showNoLoginPopup
    {
      showNoLoginPopup := true;
    }

    method CloseNoLoginPopup()
      modifies this`showNoLoginPopup
      ensures !showNoLoginPopup
    {
      showNoLoginPopup := false;
    }

    /**
     * `getCartList`, given the `cart` and `goods` collections and the openid
     * the user module returns: a fresh list joining the user's cart records
     * with their goods.
     */
    method GetCartList(owner: string, cart: seq<CartRecord>, goods: seq<Goods>)
      modifies this`cartList
      ensures cartList.Loaded? && fresh(cartList.list)
      ensures cartList.list.elems == JoinCart(CartOf(cart, owner), goods)
    {
      var tempCartList := new CartArray(JoinCart(CartOf(cart, owner), goods));
      cartList := Loaded(tempCartList);
    }

    /**
     * `deleteGoods`: removes in place, from the very array `cartList` holds,
     * the element `findIndex` + `splice(index, 1)` selects. On `''` the call
     * fails (`findIndex` is not a function of a string) and nothing changes.
     */
    method DeleteGoods(id: string) returns (ok: bool)
      modifies this`cartList, if cartList.Loaded? then {cartList.list} else {}
      ensures ok <==> old(cartList).Loaded?
      ensures cartList == old(cartList)
      ensures ok ==> cartList.list.elems == AfterDelete(old(cartList.list.elems), id)
    {
      if cartList.Blank? {
        return false;
      }
      var tempCartList := cartList.list;
      var index := cartList.list.FindIndex(id);
      tempCartList.Splice(index);
      cartList := Loaded(tempCartList);
      ok := true;
    }
  }
}
