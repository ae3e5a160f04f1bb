/**
 * Repairs: the repair categories and request statuses with their labels,
 * the service and request records with their validation predicates, the
 * seed catalogue and requests, and the two repositories' finders and
 * request numbers.
 */
module Repairs {
  import opened Wrappers
  import opened Seqs
  import opened Text

  // ---------------------------------------------------------------------
  // Enumerations

  /** `repairCategorySchema`: the six kinds of repair. */
  datatype RepairCategory = Laptop | Desktop | Monitor | Peripheral | DataRecovery | Upgrade

  const AllCategories: seq<RepairCategory> := [Laptop, Desktop, Monitor, Peripheral, DataRecovery, Upgrade]

  function CategoryName(c: RepairCategory): string {
    match c
    case Laptop => "laptop"
    case Desktop => "desktop"
    case Monitor => "monitor"
    case Peripheral => "peripheral"
    case DataRecovery => "data_recovery"
    case Upgrade => "upgrade"
  }

  function ParseCategory(name: string): (r: Option<RepairCategory>)
    ensures r.Some? ==> CategoryName(r.value) == name
    ensures r.None? <==> forall c: RepairCategory :: CategoryName(c) != name
  {
    if name == "laptop" then Some(Laptop)
    else if name == "desktop" then Some(Desktop)
    else if name == "monitor" then Some(Monitor)
    else if name == "peripheral" then Some(Peripheral)
    else if name == "data_recovery" then Some(DataRecovery)
    else if name == "upgrade" then Some(Upgrade)
    else None
  }

  /** `REPAIR_CATEGORY_LABELS`. */
  function CategoryLabel(c: RepairCategory): (r: string)
    ensures r != []
  {
    match c
    case Laptop => "Ноутбуки"
    case Desktop => "Настольные ПК"
    case Monitor => "Мониторы"
    case Peripheral => "Периферия"
    case DataRecovery => "Восстановление данных"
    case Upgrade => "Апгрейд"
  }

  /** There are exactly six categories, and each name parses back to its category. */
  lemma CategoriesComplete()
    ensures |AllCategories| == 6
    ensures forall i, j :: 0 <= i < j < |AllCategories| ==> AllCategories[i] != AllCategories[j]
    ensures forall c: RepairCategory :: c in AllCategories && ParseCategory(CategoryName(c)) == Some(c)
  {
    forall c: RepairCategory ensures c in AllCategories && ParseCategory(CategoryName(c)) == Some(c) {
      match c
      case Laptop => assert AllCategories[0] == c;
      case Desktop => assert AllCategories[1] == c;
      case Monitor => assert AllCategories[2] == c;
      case Peripheral => assert AllCategories[3] == c;
      case DataRecovery => assert AllCategories[4] == c;
      case Upgrade => assert AllCategories[5] == c;
    }
  }

  /** `repairRequestStatusSchema`: the six states of a repair request. */
  datatype RepairStatus = Pending | Diagnosed | AwaitingApproval | InProgress | Completed | Cancelled

  const AllStatuses: seq<RepairStatus> := [Pending, Diagnosed, AwaitingApproval, InProgress, Completed, Cancelled]

  function StatusName(s: RepairStatus): string {
    match s
    case Pending => "pending"
    case Diagnosed => "diagnosed"
    case AwaitingApproval => "awaiting_approval"
    case InProgress => "in_progress"
    case Completed => "completed"
    case Cancelled => "cancelled"
  }

  function ParseStatus(name: string): (r: Option<RepairStatus>)
    ensures r.Some? ==> StatusName(r.value) == name
    ensures r.None? <==> forall s: RepairStatus :: StatusName(s) != name
  {
    if name == "pending" then Some(Pending)
    else if name == "diagnosed" then Some(Diagnosed)
    else if name == "awaiting_approval" then Some(AwaitingApproval)
    else if name == "in_progress" then Some(InProgress)
    else if name == "completed" then Some(Completed)
    else if name == "cancelled" then Some(Cancelled)
    else None
  }

  /** `REPAIR_STATUS_LABELS`. */
  function StatusLabel(s: RepairStatus): (r: string)
    ensures r != []
  {
    match s
    case Pending => "Ожидает диагностики"
    case Diagnosed => "Диагностика завершена"
    case AwaitingApproval => "Ожидает подтверждения"
    case InProgress => "В работе"
    case Completed => "Выполнен"
    case Cancelled => "Отменен"
  }

  /** There are exactly six statuses, and each name parses back to its status. */
  lemma StatusesComplete()
    ensures |AllStatuses| == 6
    ensures forall i, j :: 0 <= i < j < |AllStatuses| ==> AllStatuses[i] != AllStatuses[j]
    ensures forall s: RepairStatus :: s in AllStatuses && ParseStatus(StatusName(s)) == Some(s)
  {
    forall s: RepairStatus ensures s in AllStatuses && ParseStatus(StatusName(s)) == Some(s) {
      match s
      case Pending => assert AllStatuses[0] == s;
      case Diagnosed => assert AllStatuses[1] == s;
      case AwaitingApproval => assert AllStatuses[2] == s;
      case InProgress => assert AllStatuses[3] == s;
      case Completed => assert AllStatuses[4] == s;
      case Cancelled => assert AllStatuses[5] == s;
    }
  }

  // ---------------------------------------------------------------------
  // Records

  /** A repair service of the catalogue; prices in roubles. */
  datatype RepairService = RepairService(id: string, name: string, description: string, category: RepairCategory,
                                         estimatedTime: string, priceFrom: int, priceTo: Option<int>,
                                         isPopular: Option<bool>)

  /** `repairServiceSchema`: a name, a positive starting price, and a positive upper price when given. */
  predicate ValidService(s: RepairService) {
    |s.name| >= 1 && s.priceFrom > 0 && (s.priceTo.Some? ==> s.priceTo.value > 0)
  }

  datatype RepairStatusEntry = RepairStatusEntry(status: RepairStatus, timestamp: string, comment: Option<string>)

  datatype RepairRequest = RepairRequest(
    id: string,
    requestNumber: string,
    userId: string,
    service: RepairService,
    deviceType: string,
    deviceBrand: string,
    deviceModel: string,
    serialNumber: Option<string>,
    problemDescription: string,
    status: RepairStatus,
    statusHistory: seq<RepairStatusEntry>,
    estimatedCost: Option<int>,
    finalCost: Option<int>,
    createdAt: string,
    updatedAt: string,
    completedAt: Option<string>)

  /**
   * `repairRequestSchema`: a valid service, the device described, a
   * problem description of at least ten characters, and positive costs
   * when given.
   */
  predicate ValidRequest(r: RepairRequest) {
    && ValidService(r.service)
    && |r.deviceType| >= 1 && |r.deviceBrand| >= 1 && |r.deviceModel| >= 1
    && |r.problemDescription| >= 10
    && (r.estimatedCost.Some? ==> r.estimatedCost.value > 0)
    && (r.finalCost.Some? ==> r.finalCost.value > 0)
  }

  /** The body of a new repair request. */
  datatype CreateRepairRequest = CreateRepairRequest(serviceId: string, deviceType: string, deviceBrand: string,
                                                     deviceModel: string, serialNumber: Option<string>,
                                                     problemDescription: string)

  /**
   * `createRepairRequestSchema`: device type, brand and model non-empty and
   * a problem description of at least ten characters; the serial number
   * may be left out.
   */
  predicate ValidCreateRequest(req: CreateRepairRequest) {
    && |req.deviceType| >= 1 && |req.deviceBrand| >= 1 && |req.deviceModel| >= 1
    && |req.problemDescription| >= 10
  }

  /** A request whose history ends in its current status, and which carries a completion time only when completed. */
  predicate ConsistentHistory(r: RepairRequest) {
    && r.statusHistory != []
    && r.statusHistory[|r.statusHistory| - 1].status == r.status
    && (r.completedAt.Some? <==> r.status == Completed)
  }

  // ---------------------------------------------------------------------
  // Finder predicates

  function CategoryIs(category: RepairCategory): RepairService -> bool {
    (s: RepairService) => s.category == category
  }

  /** `s.isPopular` is truthy. */
  function IsPopular(): RepairService -> bool {
    (s: RepairService) => s.isPopular == Some(true)
  }

  function UserIs(userId: string): RepairRequest -> bool {
    (r: RepairRequest) => r.userId == userId
  }

  function NumberIs(requestNumber: string): RepairRequest -> bool {
    (r: RepairRequest) => r.requestNumber == requestNumber
  }

  /** The services of a category, in catalogue order. */
  function ServicesIn(services: seq<RepairService>, category: RepairCategory): (r: seq<RepairService>)
    ensures forall s :: s in r <==> s in services && s.category == category
    ensures forall s :: multiset(r)[s] == if s.category == category then multiset(services)[s] else 0
  {
    FilterContains(services, CategoryIs(category));
    FilterCounts(services, CategoryIs(category));
    Filter(services, CategoryIs(category))
  }

  /** The services marked popular, in catalogue order. */
  function PopularServices(services: seq<RepairService>): (r: seq<RepairService>)
    ensures forall s :: s in r <==> s in services && s.isPopular == Some(true)
    ensures forall s :: multiset(r)[s] == if s.isPopular == Some(true) then multiset(services)[s] else 0
  {
    FilterContains(services, IsPopular());
    FilterCounts(services, IsPopular());
    Filter(services, IsPopular())
  }

  // ---------------------------------------------------------------------
  // Repositories

  class RepairServiceRepository {
    var data: seq<RepairService>

    /** Starts from the seed catalogue. */
    constructor ()
      ensures data == InitialServices()
    {
      data := InitialServices();
    }

    /** `findByCategory`: the services of the category, in stored order. */
    function FindByCategory(category: RepairCategory): (r: seq<RepairService>)
      reads this
      ensures forall s :: s in r <==> s in data && s.category == category
      ensures forall s :: multiset(r)[s] == if s.category == category then multiset(data)[s] else 0
    {
      ServicesIn(data, category)
    }

    /** `findPopular`: the services marked popular, in stored order. */
    function FindPopular(): (r: seq<RepairService>)
      reads this
      ensures forall s :: s in r <==> s in data && s.isPopular == Some(true)
      ensures forall s :: multiset(r)[s] == if s.isPopular == Some(true) then multiset(data)[s] else 0
    {
      PopularServices(data)
    }
  }

  class RepairRequestRepository {
    var data: seq<RepairRequest>

    /** Starts from the seed requests. */
    constructor ()
      ensures data == InitialRequests()
    {
      data := InitialRequests();
    }

    /** `findByUserId`: the user's requests, in stored order. */
    function FindByUserId(userId: string): (r: seq<RepairRequest>)
      reads this
      ensures forall x :: x in r <==> x in data && x.userId == userId
      ensures forall x :: multiset(r)[x] == if x.userId == userId then multiset(data)[x] else 0
    {
      FilterContains(data, UserIs(userId));
      FilterCounts(data, UserIs(userId));
      Filter(data, UserIs(userId))
    }

    /** `findByRequestNumber`: the first request with the number, or null. */
    function FindByRequestNumber(requestNumber: string): (r: Option<RepairRequest>)
      reads this
      ensures r.None? <==> forall j :: 0 <= j < |data| ==> data[j].requestNumber != requestNumber
      ensures r.Some? ==> r.value.requestNumber == requestNumber &&
                          exists i :: 0 <= i < |data| && data[i] == r.value &&
                                      forall j :: 0 <= j < i ==> data[j].requestNumber != requestNumber
    {
      FindFirst(data, NumberIs(requestNumber))
    }

    /**
     * `generateRequestNumber`: "REP-2024-" and the last six digits of the
     * clock in milliseconds (the reading is the parameter); fifteen
     * characters for any reading of at least 100000.
     */
    function GenerateRequestNumber(now: nat): (r: string)
      ensures 9 <= |r| <= 15 && r[..9] == "REP-2024-"
      ensures now >= 100000 ==> |r| == 15
      ensures forall i :: 9 <= i < |r| ==> '0' <= r[i] <= '9'
      ensures DecimalValue(r[9..]) == now % 1000000
      ensures now < 1000000 ==> r[9..] == DecimalString(now)
    {
      var prefix := "REP-2024-";
      assert |prefix| == 9;
      ClockStamp(prefix, now)
    }
  }

  /** `getRepairServicesByCategory`: the same filter as `findByCategory`, over the seed catalogue. */
  function GetRepairServicesByCategory(category: RepairCategory): (r: seq<RepairService>)
    ensures forall s :: s in r <==> s in InitialServices() && s.category == category
  {
    ServicesIn(InitialServices(), category)
  }

  /** `getPopularRepairServices`: the same filter as `findPopular`, over the seed catalogue. */
  function GetPopularRepairServices(): (r: seq<RepairService>)
    ensures forall s :: s in r <==> s in InitialServices() && s.isPopular == Some(true)
  {
    PopularServices(InitialServices())
  }

  /** A freshly built repository answers the category and popularity queries as the module functions do. */
  lemma SeedFindersAgree(repo: RepairServiceRepository, category: RepairCategory)
    requires repo.data == InitialServices()
    ensures repo.FindByCategory(category) == GetRepairServicesByCategory(category)
    ensures repo.FindPopular() == GetPopularRepairServices()
  {
  }

  // ---------------------------------------------------------------------
  // Seed data

  function InitialServices(): (r: seq<RepairService>)
    ensures |r| == 14
    ensures forall i :: 0 <= i < |r| ==> ValidService(r[i]) && r[i].priceTo.Some? && r[i].priceTo.value > r[i].priceFrom
  {
    seq(14, i requires 0 <= i < 14 => SeedService(i + 1))
  }

  function Service(n: string, name: string, description: string, category: RepairCategory, time: string,
                   priceFrom: int, priceTo: int, popular: bool): (s: RepairService)
    requires |name| >= 1 && 0 < priceFrom < priceTo
    ensures ValidService(s) && s.priceTo.Some? && s.priceTo.value > s.priceFrom
  {
    RepairService("rs-" + n, name, description, category, time, priceFrom, Some(priceTo),
                  if popular then Some(true) else None)
  }

  /** The n-th seed service, `rs-n`. */
  function SeedService(n: nat): (s: RepairService)
    requires 1 <= n <= 14
    ensures ValidService(s) && s.priceTo.Some? && s.priceTo.value > s.priceFrom
  {
    if n <= 3 then LaptopService(n)
    else if n <= 5 then LaptopPartService(n)
    else if n <= 8 then DesktopService(n)
    else if n <= 10 then MonitorService(n)
    else RecoveryUpgradeService(n)
  }

  /** The laptop screen, keyboard and cleaning services of the seed catalogue. */
  function LaptopService(n: nat): (s: RepairService)
    requires 1 <= n <= 3
    ensures ValidService(s) && s.priceTo.Some? && s.priceTo.value > s.priceFrom
  {
    match n
    case 1 => Service("1", "Замена матрицы ноутбука", "Замена поврежденного или неисправного экрана ноутбука",
                      Laptop, "1-2 дня", 3500, 15000, true)
    case 2 => Service("2", "Замена клавиатуры ноутбука", "Установка новой клавиатуры взамен поврежденной",
                      Laptop, "1-3 часа", 2000, 8000, true)
    case 3 => Service("3", "Чистка ноутбука от пыли", "Профессиональная чистка системы охлаждения и замена термопасты",
                      Laptop, "1-2 часа", 1500, 3000, true)
  }

  /** The laptop motherboard and battery services of the seed catalogue. */
  function LaptopPartService(n: nat): (s: RepairService)
    requires 4 <= n <= 5
    ensures ValidService(s) && s.priceTo.Some? && s.priceTo.value > s.priceFrom
  {
    match n
    case 4 => Service("4", "Ремонт материнской платы ноутбука", "Диагностика и ремонт неисправностей материнской платы",
                      Laptop, "2-5 дней", 3000, 12000, false)
    case 5 => Service("5", "Замена батареи ноутбука", "Установка новой оригинальной или совместимой батареи",
                      Laptop, "30 минут", 500, 1500, false)
  }

  /** The desktop services of the seed catalogue. */
  function DesktopService(n: nat): (s: RepairService)
    requires 6 <= n <= 8
    ensures ValidService(s) && s.priceTo.Some? && s.priceTo.value > s.priceFrom
  {
    match n
    case 6 => Service("6", "Сборка компьютера", "Профессиональная сборка ПК из комплектующих заказчика",
                      Desktop, "2-4 часа", 3000, 7000, true)
    case 7 => Service("7", "Диагностика компьютера", "Полная диагностика всех компонентов системного блока",
                      Desktop, "1 час", 500, 1500, false)
    case 8 => Service("8", "Установка/переустановка Windows", "Установка операционной системы с настройкой драйверов",
                      Desktop, "1-2 часа", 1000, 2500, false)
  }

  /** The monitor services of the seed catalogue. */
  function MonitorService(n: nat): (s: RepairService)
    requires 9 <= n <= 10
    ensures ValidService(s) && s.priceTo.Some? && s.priceTo.value > s.priceFrom
  {
    match n
    case 9 => Service("9", "Ремонт монитора", "Диагностика и устранение неисправностей монитора",
                      Monitor, "1-5 дней", 2000, 10000, false)
    case 10 => Service("10", "Замена подсветки монитора", "Замена LED-подсветки или инвертора",
                       Monitor, "1-2 дня", 2500, 6000, false)
  }

  /** The data recovery and upgrade services of the seed catalogue. */
  function RecoveryUpgradeService(n: nat): (s: RepairService)
    requires 11 <= n <= 14
    ensures ValidService(s) && s.priceTo.Some? && s.priceTo.value > s.priceFrom
  {
    match n
    case 11 => Service("11", "Восстановление данных с HDD", "Восстановление информации с поврежденного жесткого диска",
                       DataRecovery, "1-7 дней", 5000, 30000, true)
    case 12 => Service("12", "Восстановление данных с SSD", "Восстановление информации с твердотельного накопителя",
                       DataRecovery, "1-7 дней", 7000, 40000, false)
    case 13 => Service("13", "Установка SSD", "Установка SSD с переносом системы и данных",
                       Upgrade, "1-2 часа", 1000, 2500, true)
    case 14 => Service("14", "Увеличение оперативной памяти", "Подбор и установка дополнительной RAM",
                       Upgrade, "30 минут", 500, 1000, false)
  }

  function InitialRequests(): (r: seq<RepairRequest>)
    ensures |r| == 2
    ensures forall i :: 0 <= i < |r| ==> ConsistentHistory(r[i])
  {
    [SeedRequest(1), SeedRequest(2)]
  }

  function Entry(status: RepairStatus, timestamp: string): RepairStatusEntry {
    RepairStatusEntry(status, timestamp, None)
  }

  function Noted(status: RepairStatus, timestamp: string, comment: string): RepairStatusEntry {
    RepairStatusEntry(status, timestamp, Some(comment))
  }

  /** The seed requests: one in progress, one completed. */
  function SeedRequest(n: nat): (r: RepairRequest)
    requires 1 <= n <= 2
    ensures ConsistentHistory(r)
  {
    match n
    case 1 =>
      RepairRequest("repair-1", "REP-2024-000123", "user-1", SeedService(1), "Ноутбук", "ASUS", "ROG Strix G15",
                    None, "Разбит экран, не отображает изображение", InProgress,
                    [Entry(Pending, "2024-01-25T10:00:00Z"),
                     Noted(Diagnosed, "2024-01-25T14:00:00Z", "Требуется замена матрицы"),
                     Noted(AwaitingApproval, "2024-01-25T14:30:00Z", "Стоимость ремонта: 8500₽"),
                     Noted(InProgress, "2024-01-25T16:00:00Z", "Матрица заказана")],
                    Some(8500), None, "2024-01-25T10:00:00Z", "2024-01-25T16:00:00Z", None)
    case 2 =>
      RepairRequest("repair-2", "REP-2024-000122", "user-1", SeedService(3), "Ноутбук", "Lenovo",
                    "ThinkPad X1 Carbon", None, "Сильно греется, шумит вентилятор", Completed,
                    [Entry(Pending, "2024-01-20T11:00:00Z"),
                     Entry(Diagnosed, "2024-01-20T12:00:00Z"),
                     Entry(InProgress, "2024-01-20T12:30:00Z"),
                     Noted(Completed, "2024-01-20T14:00:00Z", "Чистка выполнена, термопаста заменена")],
                    Some(2000), Some(2000), "2024-01-20T11:00:00Z", "2024-01-20T14:00:00Z",
                    Some("2024-01-20T14:00:00Z"))
  }
}
