/** A category of tasks. Tasks hold a copy of their category, compared by value. */
module Categories {
  import opened Base

  datatype Category = Category(id: Id, name: string)
}
