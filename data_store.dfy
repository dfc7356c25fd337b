/**
 * The fixture data of data_store.py: the book catalog keyed by id, in insertion
 * order, and the separate stock ledger that order submission reads.
 */
module DataStore {
  import opened Wrappers

  /** A catalog entry. `price` is in cents and absent for every shipped book. */
  datatype Book = Book(
    id: int, title: string, author: string, year: int, isbn: string, stock: int,
    price: Option<int>)

  const BooksData: map<int, Book> := map[
    1 := Book(1, "The Hitchhiker's Guide to the Galaxy", "Douglas Adams", 1979, "978-0345391803", 5, None),
    2 := Book(2, "Ogboju Ode Ninu Igbo Irunmole", "D.O. Fagunwa", 1938, "978-9781560017", 3, None),
    3 := Book(3, "1984", "George Orwell", 1949, "978-0451524935", 10, None),
    4 := Book(4, "Stay With Me", "Ay\U{1ecd}\U{300}b\U{e1}mi Ad\U{e9}b\U{e1}y\U{1ecd}\U{300}", 2017, "978-1101904110", 2, None),
    5 := Book(5, "Ake: The Years of Childhood", "Wole Soyinka", 1958, "978-0385474542", 7, None),
    6 := Book(6, "Pride and Prejudice", "Jane Austen", 1813, "978-0141439518", 10, None)
  ]

  /** `inventory`: book id to units in stock. */
  const Inventory: map<int, int> := map[1 := 5, 2 := 3, 3 := 10, 4 := 2, 5 := 7, 6 := 10]
}
