/**
 * The higher-order-functions walkthrough: three `for` loops that build a
 * list of dogs, a list of names and an order total, each followed by the
 * `filter`, `map` or `reduce` call that replaces it. The loops are proved
 * to compute exactly what the combinators compute.
 */
module HigherOrder {
  import opened Seqs

  datatype Animal = Animal(name: string, species: string)

  datatype Order = Order(amount: int)

  function Animals(): seq<Animal> {
    [ Animal("Fluffykins", "rabbit"), Animal("Caro", "dog"), Animal("Hamilton", "dog"),
      Animal("Harold", "fish"), Animal("Ursula", "cat"), Animal("Jimmy", "fish") ]
  }

  function Orders(): seq<Order> {
    [Order(250), Order(400), Order(100), Order(325)]
  }

  /** `isDog` */
  function IsDog(a: Animal): bool {
    a.species == "dog"
  }

  /** `isNotDog` */
  function IsNotDog(a: Animal): bool {
    a.species != "dog"
  }

  /** `animal => animal.name` */
  function NameOf(a: Animal): string {
    a.name
  }

  /** `add`, and equally the arrow `(sum, order) => sum + order.amount` */
  function Add(sum: int, o: Order): int {
    sum + o.amount
  }

  /** `s.map(f)` */
  function Map<A, B>(s: seq<A>, f: A -> B): (r: seq<B>)
    ensures |r| == |s|
    ensures forall i :: 0 <= i < |s| ==> r[i] == f(s[i])
  {
    seq(|s|, i requires 0 <= i < |s| => f(s[i]))
  }

  /** The first loop: push every dog, in order. */
  method DogsByLoop(animals: seq<Animal>) returns (dogs: seq<Animal>)
    ensures dogs == Filter(animals, IsDog)
  {
    dogs := [];
    for i := 0 to |animals|
      invariant dogs == Filter(animals[..i], IsDog)
    {
      assert animals[..i + 1][..i] == animals[..i];
      if animals[i].species == "dog" {
        dogs := dogs + [animals[i]];
      }
    }
    assert animals[..|animals|] == animals;
  }

  /** The second loop: push every name, in order. */
  method NamesByLoop(animals: seq<Animal>) returns (names: seq<string>)
    ensures names == Map(animals, NameOf)
  {
    names := [];
    for i := 0 to |animals|
      invariant |names| == i
      invariant forall k :: 0 <= k < i ==> names[k] == animals[k].name
    {
      names := names + [animals[i].name];
    }
  }

  /** The third loop: `totalAmount += orders[i].amount`. */
  method TotalByLoop(orders: seq<Order>) returns (totalAmount: int)
    ensures totalAmount == FoldLeft(Add, 0, orders)
  {
    totalAmount := 0;
    for i := 0 to |orders|
      invariant totalAmount == FoldLeft(Add, 0, orders[..i])
    {
      assert orders[..i + 1][..i] == orders[..i];
      totalAmount := totalAmount + orders[i].amount;
    }
    assert orders[..|orders|] == orders;
  }

  /** The dogs and the other animals split the list between them. */
  lemma DogsAndOthersPartition(animals: seq<Animal>)
    ensures |Filter(animals, IsDog)| + |Filter(animals, IsNotDog)| == |animals|
    ensures forall a :: a in animals ==> (a in Filter(animals, IsDog) <==> a !in Filter(animals, IsNotDog))
  {
    FilterPartition(animals, IsDog, IsNotDog);
  }

  /** The loop's dogs are an in-order subsequence: the dogs of a longer list extend those of its prefix. */
  lemma DogsOfPrefix(animals: seq<Animal>, more: seq<Animal>)
    ensures Filter(animals + more, IsDog) == Filter(animals, IsDog) + Filter(more, IsDog)
  {
    FilterAppend(animals, more, IsDog);
  }

  /** A reduce of `add` from 0 is the sum of the amounts; it grows by each appended order's amount. */
  lemma {:induction false} TotalAppend(orders: seq<Order>, o: Order)
    ensures FoldLeft(Add, 0, orders + [o]) == FoldLeft(Add, 0, orders) + o.amount
  {
    assert (orders + [o])[..|orders|] == orders;
  }

  /** Two reducers that agree on every step reduce alike, so the named `add` and the arrow give one total. */
  lemma {:induction false} FoldPointwise<A>(f: (int, A) -> int, g: (int, A) -> int, init: int, s: seq<A>)
    requires forall acc, x :: f(acc, x) == g(acc, x)
    ensures FoldLeft(f, init, s) == FoldLeft(g, init, s)
  {
    if s != [] {
      FoldPointwise(f, g, init, s[..|s| - 1]);
    }
  }

  /** The walkthrough's own data: two dogs and four other animals. */
  lemma DogsExample()
    ensures Filter(Animals(), IsDog) == [Animal("Caro", "dog"), Animal("Hamilton", "dog")]
    ensures |Filter(Animals(), IsNotDog)| == 4
  {
    var a := Animals();
    assert a == a[..3] + a[3..];
    FilterAppend(a[..3], a[3..], IsDog);
    FirstThreeAnimals();
    NoDogs(a[3..]);
    DogsAndOthersPartition(a);
  }

  lemma FirstThreeAnimals()
    ensures Filter(Animals()[..3], IsDog) == [Animals()[1], Animals()[2]]
  {
    var a := Animals();
    var front := a[..3];
    assert front[..2][..1] == [a[0]] && [a[0]][..0] == [];
    assert Filter([a[0]], IsDog) == [];
    assert Filter(front[..2], IsDog) == [a[1]];
  }

  lemma {:induction false} NoDogs(s: seq<Animal>)
    requires forall i :: 0 <= i < |s| ==> !IsDog(s[i])
    ensures Filter(s, IsDog) == []
  {
    if s != [] {
      NoDogs(s[..|s| - 1]);
    }
  }

  /** The walkthrough's orders total 1075 whichever way it is computed. */
  lemma TotalExample()
    ensures FoldLeft(Add, 0, Orders()) == 1075
  {
    var o := Orders();
    assert o[..1][..0] == [];
    assert FoldLeft(Add, 0, o[..1]) == 250;
    assert o[..2][..1] == o[..1];
    assert FoldLeft(Add, 0, o[..2]) == 650;
    assert o[..3][..2] == o[..2];
    assert FoldLeft(Add, 0, o[..3]) == 750;
    assert o[..|o| - 1] == o[..3];
  }
}
