/**
 * Banners: the hero and promo banner records, their schema, the seed
 * lists, and `findActive`, which shows the active banners in display
 * order without touching the stored list.
 */
module Banners {
  import opened Wrappers
  import opened Seqs
  import opened Sorting

  /** A promo banner; a hero banner is one with no discount or promo code. */
  datatype Banner = Banner(
    id: string,
    title: string,
    subtitle: Option<string>,
    description: Option<string>,
    image: string,
    mobileImage: Option<string>,
    link: string,
    buttonText: Option<string>,
    backgroundColor: Option<string>,
    textColor: Option<string>,
    isActive: bool,
    order: int,
    startDate: Option<string>,
    endDate: Option<string>,
    discountPercent: Option<int>,
    promoCode: Option<string>)

  /**
   * `promoBannerSchema`: a title, a non-negative display order, and a
   * discount between 0 and 100 when given. The URL checks on the images
   * are not modelled.
   */
  predicate ValidBanner(b: Banner) {
    && |b.title| >= 1
    && b.order >= 0
    && (b.discountPercent.Some? ==> 0 <= b.discountPercent.value <= 100)
  }

  function IsActive(): Banner -> bool {
    (b: Banner) => b.isActive
  }

  function OrderOf(b: Banner): int {
    b.order
  }

  /**
   * `data.filter(b => b.isActive).sort((a, b) => a.order - b.order)`: the
   * active banners, ascending by `order`, each as often as it is stored.
   */
  function ActiveBanners(data: seq<Banner>): (r: seq<Banner>)
    ensures forall b :: b in r <==> b in data && b.isActive
    ensures multiset(r) == multiset(Filter(data, IsActive()))
    ensures forall i, j :: 0 <= i < j < |r| ==> r[i].order <= r[j].order
  {
    FilterContains(data, IsActive());
    var r := SortOnKey(Filter(data, IsActive()), OrderOf, false);
    assert forall b :: b in r <==> b in multiset(Filter(data, IsActive()));
    r
  }

  /** Active banners sharing an `order` keep their stored order. */
  lemma ActiveBannersStable(data: seq<Banner>, v: int)
    ensures Filter(ActiveBanners(data), KeyIs(OrderOf, v)) == Filter(Filter(data, IsActive()), KeyIs(OrderOf, v))
  {
    SameKeyKeepsOrder(Filter(data, IsActive()), OrderOf, false, v);
  }

  /**
   * The schedule is never consulted: giving a banner any start and end
   * dates leaves it shown exactly when it is active.
   */
  lemma DatesIgnored(data: seq<Banner>, i: int, startDate: Option<string>, endDate: Option<string>)
    requires 0 <= i < |data|
    ensures var moved := data[i := data[i].(startDate := startDate, endDate := endDate)];
            moved[i] in ActiveBanners(moved) <==> data[i].isActive
  {
  }

  /**
   * The hero and the promo banner repositories: the same finder over
   * different seed lists.
   */
  class BannerRepository {
    var data: seq<Banner>

    /** `HeroBannerRepository`: starts from the hero banners. */
    constructor Hero()
      ensures data == InitialHeroBanners()
    {
      data := InitialHeroBanners();
    }

    /** `PromoBannerRepository`: starts from the promo banners. */
    constructor Promo()
      ensures data == InitialPromoBanners()
    {
      data := InitialPromoBanners();
    }

    /**
     * `findActive`: the active banners ascending by `order`, ties in stored
     * order. It sorts a filtered copy, so the stored list is left as it is.
     */
    function FindActive(): (r: seq<Banner>)
      reads this
      ensures forall b :: b in r <==> b in data && b.isActive
      ensures multiset(r) == multiset(Filter(data, IsActive()))
      ensures forall i, j :: 0 <= i < j < |r| ==> r[i].order <= r[j].order
    {
      ActiveBanners(data)
    }
  }

  /** `getActiveHeroBanners`: the same filter and sort, over the hero seed. */
  function GetActiveHeroBanners(): (r: seq<Banner>)
    ensures r == InitialHeroBanners()
  {
    SeedShownAsStored(InitialHeroBanners());
    ActiveBanners(InitialHeroBanners())
  }

  /** `getActivePromoBanners`: the same filter and sort, over the promo seed. */
  function GetActivePromoBanners(): (r: seq<Banner>)
    ensures r == InitialPromoBanners()
  {
    SeedShownAsStored(InitialPromoBanners());
    ActiveBanners(InitialPromoBanners())
  }

  /** A fresh repository's `findActive` agrees with the module functions over the same seed. */
  lemma SeedFindersAgree(hero: BannerRepository, promo: BannerRepository)
    requires hero.data == InitialHeroBanners() && promo.data == InitialPromoBanners()
    ensures hero.FindActive() == GetActiveHeroBanners()
    ensures promo.FindActive() == GetActivePromoBanners()
  {
  }

  /** A list of active banners stored in display order is shown exactly as stored. */
  lemma SeedShownAsStored(data: seq<Banner>)
    requires forall i :: 0 <= i < |data| ==> data[i].isActive
    requires forall i, j :: 0 <= i < j < |data| ==> data[i].order <= data[j].order
    ensures ActiveBanners(data) == data
  {
    FilterKeepsAll(data, IsActive());
    SortOnKeyOfSorted(data, OrderOf);
  }

  // ---------------------------------------------------------------------
  // Seed data

  function Hero(n: string, title: string, subtitle: string, description: string, image: string, link: string,
                buttonText: string, background: string, order: int, discount: Option<int>): (b: Banner)
    ensures b.isActive && b.order == order
  {
    Banner("banner-" + n, title, Some(subtitle), Some(description), image, None, link, Some(buttonText),
           Some(background), Some("#ffffff"), true, order, None, None, discount, None)
  }

  function Promo(n: string, title: string, subtitle: string, image: string, link: string, buttonText: string,
                 order: int): (b: Banner)
    ensures b.isActive && b.order == order
  {
    Banner("promo-" + n, title, Some(subtitle), None, image, None, link, Some(buttonText), None, None, true,
           order, None, None, None, None)
  }

  /** An image of the photo stock, cropped to the given size. */
  function Unsplash(photo: string, size: string): string {
    "https://images.unsplash.com/photo-" + photo + size
  }

  const HeroSize := "?w=1200&h=500&fit=crop"

  const PromoSize := "?w=400&h=300&fit=crop"

  function InitialHeroBanners(): (r: seq<Banner>)
    ensures |r| == 3
    ensures forall i :: 0 <= i < |r| ==> r[i].isActive && r[i].order == i + 1
  {
    [SeedHero(1), SeedHero(2), SeedHero(3)]
  }

  function InitialPromoBanners(): (r: seq<Banner>)
    ensures |r| == 3
    ensures forall i :: 0 <= i < |r| ==> r[i].isActive && r[i].order == i + 1
  {
    [SeedPromo(1), SeedPromo(2), SeedPromo(3)]
  }

  /** The n-th hero banner of the seed, `banner-n`, shown n-th. */
  function SeedHero(n: nat): (b: Banner)
    requires 1 <= n <= 3
    ensures b.isActive && b.order == n
  {
    match n
    case 1 => Hero("1", "Зимняя распродажа", "Скидки до 30% на видеокарты",
                   "Успейте приобрести топовые видеокарты RTX 4000 по лучшим ценам",
                   Unsplash("1591488320449-011701bb6704", HeroSize),
                   "/catalog/graphics-cards", "Смотреть каталог", "#1a1a2e", 1, Some(30))
    case 2 => Hero("2", "Новые ноутбуки 2024", "Игровые и профессиональные модели",
                   "Последние модели ASUS ROG, MSI и Apple MacBook уже в продаже",
                   Unsplash("1603302576837-37561b2e2302", HeroSize),
                   "/catalog/laptops", "Выбрать ноутбук", "#16213e", 2, None)
    case 3 => Hero("3", "Профессиональный ремонт", "Гарантия на все работы 6 месяцев",
                   "Диагностика бесплатно при заказе ремонта",
                   Unsplash("1597872200969-2b65d56bd16b", HeroSize),
                   "/repair", "Оставить заявку", "#0f3460", 3, None)
  }

  /** The n-th promo banner of the seed, `promo-n`, shown n-th. */
  function SeedPromo(n: nat): (b: Banner)
    requires 1 <= n <= 3
    ensures b.isActive && b.order == n
  {
    match n
    case 1 => Promo("1", "Сборка ПК под ключ", "От 5000₽",
                    Unsplash("1587831990711-23ca6441447b", PromoSize),
                    "/services/pc-build", "Подробнее", 1)
    case 2 => Promo("2", "Бесплатная доставка", "При заказе от 10 000₽",
                    Unsplash("1566576912321-d58ddd7a6088", PromoSize),
                    "/delivery", "Условия", 2)
    case 3 => Promo("3", "Рассрочка 0%", "На 12 месяцев",
                    Unsplash("1556742049-0cfed4f6a45d", PromoSize),
                    "/credit", "Узнать больше", 3)
  }
}
