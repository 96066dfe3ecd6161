/** Items, stacks and filters (server/RustImpl/src/item.rs). */
module Items {
  import opened Common

  /** `title` is the item's label, `others` stands for the remaining fields as the game reports them. */
  datatype Item = Item(title: string, name: string, damage: int, maxDamage: int, maxSize: nat, hasTag: bool, others: nat)

  datatype Stack = Stack(item: Item, size: nat)

  type Inventory = seq<Option<Stack>>

  /** The stand-in for slots that a plan must not touch. */
  const JAMMER := Item("", "", 0, 0, 1, false, 0)

  datatype Filter =
    | ByLabel(title: string)
    | ByName(name: string)
    | Both(title: string, name: string)
    | Custom(func: Item -> bool)
  {
    predicate Apply(item: Item) {
      match this
      case ByLabel(title) => item.title == title
      case ByName(name) => item.name == name
      case Both(title, name) => item.title == title && item.name == name
      case Custom(func) => func(item)
    }
  }
}
