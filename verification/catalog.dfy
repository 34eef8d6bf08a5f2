/** A menu item as the pages and the cart see it. Image URL and dietary
    tags are presentation only and are not modelled. */
module Catalog {

  datatype MenuItem = MenuItem(
    id: string,
    name: string,
    category: string,
    price: real,
    description: string)

  /** The category buttons, in display order; 'All' is the pseudo-category
      that disables the category filter. */
  const Categories: seq<string> := ["All", "Appetizers", "Main Courses", "Desserts", "Beverages"]
}
