/** The burger stores of design_patterns/creational/burger_factory.py: each
    store turns a burger type it sells into a new burger and refuses the
    others. A burger's fields are set once by its constructor, and its
    preparation steps do nothing, so burgers are values here. */
module BurgerFactory {
  import opened Outcomes

  datatype BurgerType = CHEESEBURGER | DELUXECHEESEBURGER | VEGGIEBURGER | CHICKENBURGER

  /** The concrete burger classes. */
  datatype Recipe = CheeseBurger | DeluxeCheeseBurger | VeggieBurger

  datatype Burger = Burger(recipe: Recipe, burgerName: string, toppings: seq<string>, sauce: string, price: int)

  datatype Store = CheeseBurgerStore | VeggieBurgerStore

  const CheeseStoreRefusal := "Invalid burger type for CheeseBurgerStore"
  const VeggieStoreRefusal := "Invalid burger type for VeggieBurgerStore"

  /** The fields as `Burger.__init__` leaves them. */
  predicate Unfilled(b: Burger) {
    b.burgerName == "" && b.toppings == [] && b.sauce == "" && b.price == 0
  }

  /** A new burger of the given class. */
  function NewBurger(recipe: Recipe): (b: Burger)
    ensures b.recipe == recipe && Unfilled(b)
  {
    Burger(recipe, "", [], "", 0)
  }

  /** What each store sells, and which class it builds for each type. */
  function Menu(store: Store): map<BurgerType, Recipe> {
    match store
    case CheeseBurgerStore => map[CHEESEBURGER := CheeseBurger, DELUXECHEESEBURGER := DeluxeCheeseBurger]
    case VeggieBurgerStore => map[VEGGIEBURGER := VeggieBurger]
  }

  function Refusal(store: Store): string {
    match store
    case CheeseBurgerStore => CheeseStoreRefusal
    case VeggieBurgerStore => VeggieStoreRefusal
  }

  /** `create_burger` of each store: a new burger of the class the menu
      names for the type, or `ValueError` for a type the store does not sell. */
  function CreateBurger(store: Store, burgerType: BurgerType): (r: Result<Burger>)
    ensures r.Ok? <==> burgerType in Menu(store)
    ensures r.Ok? ==> r.value == NewBurger(Menu(store)[burgerType])
    ensures r.Err? ==> r.error == ValueError(Refusal(store))
  {
    match store
    case CheeseBurgerStore =>
      if burgerType == CHEESEBURGER then Ok(NewBurger(CheeseBurger))
      else if burgerType == DELUXECHEESEBURGER then Ok(NewBurger(DeluxeCheeseBurger))
      else Err(ValueError(CheeseStoreRefusal))
    case VeggieBurgerStore =>
      if burgerType == VEGGIEBURGER then Ok(NewBurger(VeggieBurger))
      else Err(ValueError(VeggieStoreRefusal))
  }

  /** `prepare`, `cook` and `serve` of every concrete class: each does
      nothing, so the burger comes back as it was. */
  function Prepare(b: Burger): (prepared: Burger)
    ensures prepared == b
  {
    b
  }

  function Cook(b: Burger): (cooked: Burger)
    ensures cooked == b
  {
    b
  }

  function Serve(b: Burger): (served: Burger)
    ensures served == b
  {
    b
  }

  /** `order_burger`: the burger `create_burger` made, after the three
      steps, which leave all its fields as constructed. */
  function OrderBurger(store: Store, burgerType: BurgerType): (r: Result<Burger>)
    ensures r == CreateBurger(store, burgerType)
    ensures r.Ok? ==> Unfilled(r.value)
  {
    match CreateBurger(store, burgerType)
    case Err(e) => Err(e)
    case Ok(burger) => Ok(Serve(Cook(Prepare(burger))))
  }

  /** No store sells a chicken burger. */
  lemma ChickenBurgerRefusedEverywhere(store: Store)
    ensures CreateBurger(store, CHICKENBURGER).Err?
  {
  }

  /** Each type is sold by at most one store. */
  lemma StoresDoNotOverlap(burgerType: BurgerType)
    ensures !(burgerType in Menu(CheeseBurgerStore) && burgerType in Menu(VeggieBurgerStore))
  {
  }
}
