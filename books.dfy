/** The catalogue record the pages pass around (the mock catalogue of the browse page and
    the payload of an add-to-cart action). Money is held in integer cents and ratings in
    integer tenths of a star, so 16.99 is 1699 and 4.5 is 45. */
module Books {

  datatype Book = Book(
    id: int,
    title: string,
    author: string,
    cover: string,
    price: int,
    rating: int,
    genre: string,
    condition: string,
    description: string)
}
