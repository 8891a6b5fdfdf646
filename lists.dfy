/** A Python list that is handed to several procedures and changed in place by them. */
module Lists {

  class List<T> {
    var items: seq<T>

    constructor (items: seq<T>)
      ensures this.items == items
    {
      this.items := items;
    }
  }
}
