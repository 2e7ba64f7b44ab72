/**
 * The menu item records the cart handlers copy from and the menu listing
 * filters over (src/models/MenuItem.js).  The schema's constraints are a
 * predicate on the record rather than a check the model runs.
 */
module MenuItems {

  type Id = string

  datatype MenuItem = MenuItem(id: Id, name: string, description: string, price: real,
                               category: string, dietaryTags: seq<string>, imageUrl: string,
                               isFeatured: bool, preparationTime: int, available: bool)

  const Categories: set<string> := {"starter", "main", "dessert", "drink", "special"}
  const DietaryTags: set<string> := {"vegetarian", "vegan", "gluten-free", "dairy-free", "nut-free"}

  /** What the schema enforces on save: a price of at least 0 and values from the two enums. */
  predicate SchemaValid(m: MenuItem) {
    m.price >= 0.0
    && m.category in Categories
    && forall i :: 0 <= i < |m.dietaryTags| ==> m.dietaryTags[i] in DietaryTags
  }

  /** A menu store maps each id to the item with that `_id`. */
  predicate KeyedById(menu: map<Id, MenuItem>) {
    forall id :: id in menu ==> menu[id].id == id
  }
}
