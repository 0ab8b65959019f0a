/** The closed enumerations of main.swift: items, moods and the reasons
    for laughing, with the item catalog's lookup and random pick. */
module Items {
  import opened Extensions

  datatype Item = Potion | Staff

  datatype Mood = Happy | Sad | Angry

  datatype LaughReason = TargetIsWeak

  /** `Item.allCases`: every item, in declaration order. */
  const AllCases: seq<Item> := [Potion, Staff]

  lemma AllCasesComplete(item: Item)
    ensures item in AllCases
  {
  }

  /** `Item.info`: the flavour text of an item; a total lookup. */
  function Info(item: Item): (text: string)
    ensures text != []
    ensures text == "Round" <==> item == Potion
  {
    match item
    case Potion => "Round"
    case Staff => "Staffy"
  }

  /** The catalog tells the two items apart by their flavour text. */
  lemma InfoDistinguishesItems(a: Item, b: Item)
    ensures Info(a) == Info(b) <==> a == b
  {
  }

  /** `Item.random()`: a random element of `allCases`, force-unwrapped.
      The unwrap never traps, because `allCases` is never empty. */
  function RandomItem(draw: nat): (item: Item)
    ensures RandomElement(AllCases, draw) == Some(item)
    ensures item == AllCases[draw % |AllCases|]
  {
    RandomElement(AllCases, draw).value
  }

  /** Every item can come out of `Item.random()`. */
  lemma RandomItemOnto(item: Item)
    ensures exists draw: nat :: draw < |AllCases| && RandomItem(draw) == item
  {
    if item == Potion {
      assert RandomItem(0) == Potion;
    } else {
      assert RandomItem(1) == Staff;
    }
  }
}
