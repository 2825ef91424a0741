// Multiplication of reals by name: equal factors give equal products without any arithmetic.

module Products {
  function Times(x: real, y: real): real { x * y }
}
