/**
 * The home page: a five-slide hero carousel moved by arrows and by a
 * five-second timer, a shuffled product grid, and a banner shown after a
 * successful payment until its timeout fires. The timers are modelled as
 * the steps they trigger.
 */
module Home {
  import Shuffle
  import opened Catalogue

  datatype HeroSlide = HeroSlide(id: int, title: string, subtitle: string, link: string)

  const HeroSlides := [
    HeroSlide(1, "Beauty products", "Explore top sellers", "/products"),
    HeroSlide(2, "Shop Gaming essentials", "", "/products"),
    HeroSlide(3, "Shop holiday gift guides", "", "/products"),
    HeroSlide(4, "Shop Books", "explore titles", "/products"),
    HeroSlide(5, "New arrivals in Toys", "", "/products")]

  /** `(prev + 1) % heroSlides.length`. */
  function Next(prev: int): int {
    (prev + 1) % |HeroSlides|
  }

  /** `(prev - 1 + heroSlides.length) % heroSlides.length`. */
  function Prev(prev: int): int {
    (prev - 1 + |HeroSlides|) % |HeroSlides|
  }

  /**
   * From a shown slide both arrows land on a slide: the next one, wrapping
   * from the last to the first, and the previous one, wrapping from the
   * first to the last.
   */
  lemma ArrowsStayOnSlides(i: int)
    requires 0 <= i < |HeroSlides|
    ensures 0 <= Next(i) < |HeroSlides| && 0 <= Prev(i) < |HeroSlides|
    ensures Next(i) == if i == |HeroSlides| - 1 then 0 else i + 1
    ensures Prev(i) == if i == 0 then |HeroSlides| - 1 else i - 1
  {
  }

  /** The arrows undo each other. */
  lemma ArrowsInverse(i: int)
    requires 0 <= i < |HeroSlides|
    ensures Prev(Next(i)) == i && Next(Prev(i)) == i
  {
    ArrowsStayOnSlides(i);
  }

  /** Five steps forward come back to the same slide. */
  lemma NextCycles(i: int)
    requires 0 <= i < |HeroSlides|
    ensures Next(Next(Next(Next(Next(i))))) == i
  {
  }

  class HomePage {
    /** The index of the slide shown. */
    var currentSlide: int
    var shuffledProducts: seq<Product>
    var showSuccessMessage: bool

    predicate Valid()
      reads this
    {
      0 <= currentSlide < |HeroSlides|
    }

    constructor ()
      ensures Valid() && currentSlide == 0
      ensures shuffledProducts == [] && !showSuccessMessage
    {
      currentSlide := 0;
      shuffledProducts := [];
      showSuccessMessage := false;
    }

    /** The mount effect: the catalogue, shuffled once. */
    method Mount(catalogue: seq<Product>, random: nat -> real)
      requires forall k :: 0.0 <= random(k) < 1.0
      modifies this`shuffledProducts
      ensures shuffledProducts == Shuffle.Shuffled(catalogue, random)
      ensures multiset(shuffledProducts) == multiset(catalogue)
    {
      shuffledProducts := Shuffle.ShuffleArray(catalogue, random);
    }

    /** `nextSlide`. */
    method NextSlide()
      requires Valid()
      modifies this`currentSlide
      ensures Valid() && currentSlide == Next(old(currentSlide))
    {
      currentSlide := Next(currentSlide);
    }

    /** `prevSlide`. */
    method PrevSlide()
      requires Valid()
      modifies this`currentSlide
      ensures Valid() && currentSlide == Prev(old(currentSlide))
    {
      currentSlide := Prev(currentSlide);
    }

    /** One tick of the five-second interval: the same step as the next arrow. */
    method Tick()
      requires Valid()
      modifies this`currentSlide
      ensures Valid() && currentSlide == Next(old(currentSlide))
    {
      NextSlide();
    }

    /** Arriving with `location.state`: the banner shows when it says the payment succeeded. */
    method Arrive(paymentSuccess: bool)
      modifies this`showSuccessMessage
      ensures showSuccessMessage == (paymentSuccess || old(showSuccessMessage))
    {
      if paymentSuccess {
        showSuccessMessage := true;
      }
    }

    /** The banner's timeout hides it. */
    method BannerTimeout()
      modifies this`showSuccessMessage
      ensures !showSuccessMessage
    {
      showSuccessMessage := false;
    }
  }
}
