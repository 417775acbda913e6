/**
 * The request-body schemas (zod objects) as parsers from a JSON value to a typed record.
 * A schema checks its keys in the order it declares them; the routes that report an error
 * message report the first issue, so each parser stops at the first key that fails and
 * returns that key's message. The email format test is zod's own pattern and is taken as
 * the parameter `isEmail`.
 */
module Validation {
  import opened Common
  import opened Domain

  /** A JSON value as `request.json()` yields it. An absent key reads as `undefined` (`None`). */
  datatype Json =
    | JNull
    | JBool(b: bool)
    | JNumber(n: real)
    | JString(s: string)
    | JArray(items: seq<Json>)
    | JObject(fields: map<string, Json>)

  /** zod's issue codes whose default text is zod's own (not given by the schema). */
  datatype IssueCode = Required | InvalidType | InvalidEnumValue | TooSmall | NotInteger | InvalidUnion | InvalidDate

  /** The message of an issue: the text the schema attaches to the check, or zod's default for the code. */
  datatype Message = Given(text: string) | Default(code: IssueCode)

  /** The result of a parse: the typed value, or the message of the first issue. */
  datatype Checked<+T> = Pass(value: T) | Reject(message: Message)

  function Get(body: Json, key: string): Option<Json> {
    if body.JObject? && key in body.fields then Some(body.fields[key]) else None
  }

  /** The wrong-type issue: "Required" for an absent value, "Expected …, received …" otherwise. */
  function TypeIssue(v: Option<Json>): Message {
    if v.None? then Default(Required) else Default(InvalidType)
  }

  predicate IsText(v: Option<Json>) {
    v.Some? && v.value.JString?
  }

  function TextOf(v: Option<Json>): string
    requires IsText(v)
  {
    v.value.s
  }

  predicate IsNumber(v: Option<Json>) {
    v.Some? && v.value.JNumber?
  }

  function NumberOf(v: Option<Json>): real
    requires IsNumber(v)
  {
    v.value.n
  }

  /** `z.string().min(k, message)`. */
  function TextAtLeast(v: Option<Json>, k: nat, message: Message): (r: Checked<string>)
    ensures r.Pass? <==> IsText(v) && |TextOf(v)| >= k
    ensures r.Pass? ==> r.value == TextOf(v)
    ensures r.Reject? ==> r.message == if IsText(v) then message else TypeIssue(v)
  {
    if !IsText(v) then Reject(TypeIssue(v))
    else if |v.value.s| < k then Reject(message)
    else Pass(v.value.s)
  }

  /** `z.string().optional()`. */
  function OptionalText(v: Option<Json>): (r: Checked<Option<string>>)
    ensures r.Pass? <==> v.None? || IsText(v)
    ensures r.Pass? ==> r.value == if v.None? then None else Some(TextOf(v))
  {
    if v.None? then Pass(None)
    else if v.value.JString? then Pass(Some(v.value.s))
    else Reject(TypeIssue(v))
  }

  /** `z.string().email(message)`. */
  function EmailText(v: Option<Json>, isEmail: string -> bool, message: string): (r: Checked<string>)
    ensures r.Pass? <==> IsText(v) && isEmail(TextOf(v))
    ensures r.Pass? ==> r.value == TextOf(v)
    ensures r.Reject? ==> r.message == if IsText(v) then Given(message) else TypeIssue(v)
  {
    if !IsText(v) then Reject(TypeIssue(v))
    else if !isEmail(v.value.s) then Reject(Given(message))
    else Pass(v.value.s)
  }

  /**
   * `z.enum(names)`, read through `parse`, which maps a name to its value. A `message`
   * given to the enum replaces both of its issues.
   */
  function EnumText<T>(v: Option<Json>, parse: string -> Option<T>, message: Option<string>): (r: Checked<T>)
    ensures r.Pass? <==> IsText(v) && parse(TextOf(v)).Some?
    ensures r.Pass? ==> r.value == parse(TextOf(v)).value
  {
    if IsText(v) && parse(v.value.s).Some? then Pass(parse(v.value.s).value)
    else if message.Some? then Reject(Given(message.value))
    else if IsText(v) then Reject(Default(InvalidEnumValue))
    else Reject(TypeIssue(v))
  }

  /** `z.number().positive(message)`. */
  function PositiveNumber(v: Option<Json>, message: string): (r: Checked<real>)
    ensures r.Pass? <==> IsNumber(v) && NumberOf(v) > 0.0
    ensures r.Pass? ==> r.value == NumberOf(v)
    ensures r.Reject? ==> r.message == if IsNumber(v) then Given(message) else TypeIssue(v)
  {
    if !IsNumber(v) then Reject(TypeIssue(v))
    else if v.value.n <= 0.0 then Reject(Given(message))
    else Pass(v.value.n)
  }

  /** `z.number().min(0, message)`. */
  function NonNegativeNumber(v: Option<Json>, message: string): (r: Checked<real>)
    ensures r.Pass? <==> IsNumber(v) && NumberOf(v) >= 0.0
    ensures r.Pass? ==> r.value == NumberOf(v)
  {
    if !IsNumber(v) then Reject(TypeIssue(v))
    else if v.value.n < 0.0 then Reject(Given(message))
    else Pass(v.value.n)
  }

  // ---------------------------------------------------------------- categorySchema

  datatype CategoryData = CategoryData(name: string, categoryType: TransactionType, color: string, icon: Option<string>)

  /**
   * `categorySchema`: a non-empty name, a type INCOME or EXPENSE (any wrong type reads
   * "Kategori türü gereklidir"), a non-empty colour and an optional icon.
   */
  function ParseCategory(body: Json): (r: Checked<CategoryData>)
    ensures r.Pass? <==>
      && body.JObject?
      && IsText(Get(body, "name")) && |TextOf(Get(body, "name"))| >= 1
      && IsText(Get(body, "type")) && TextOf(Get(body, "type")) in {"INCOME", "EXPENSE"}
      && IsText(Get(body, "color")) && |TextOf(Get(body, "color"))| >= 1
      && (Get(body, "icon").None? || IsText(Get(body, "icon")))
    ensures r.Pass? ==>
      && r.value.name == TextOf(Get(body, "name"))
      && TransactionTypeName(r.value.categoryType) == TextOf(Get(body, "type"))
      && r.value.color == TextOf(Get(body, "color"))
      && r.value.icon == (if Get(body, "icon").None? then None else Some(TextOf(Get(body, "icon"))))
    ensures body.JObject? && IsText(Get(body, "name")) && |TextOf(Get(body, "name"))| >= 1
            && !(IsText(Get(body, "type")) && TextOf(Get(body, "type")) in {"INCOME", "EXPENSE"})
            ==> r == Reject(Given("Kategori türü gereklidir"))
  {
    if !body.JObject? then Reject(TypeIssue(Some(body)))
    else
      var name := TextAtLeast(Get(body, "name"), 1, Given("Kategori adı gereklidir"));
      var ty := EnumText(Get(body, "type"), ParseTransactionType, Some("Kategori türü gereklidir"));
      var color := TextAtLeast(Get(body, "color"), 1, Default(TooSmall));
      var icon := OptionalText(Get(body, "icon"));
      if name.Reject? then Reject(name.message)
      else if ty.Reject? then Reject(ty.message)
      else if color.Reject? then Reject(color.message)
      else if icon.Reject? then Reject(icon.message)
      else Pass(CategoryData(name.value, ty.value, color.value, icon.value))
  }

  // ---------------------------------------------------------------- invoiceSchema

  /** `invoiceItemSchema`: a non-empty description, a positive quantity, a unit price of at least 0. */
  function ParseInvoiceItem(item: Json): (r: Checked<InvoiceItem>)
    ensures r.Pass? <==>
      && item.JObject?
      && IsText(Get(item, "description")) && |TextOf(Get(item, "description"))| >= 1
      && IsNumber(Get(item, "quantity")) && NumberOf(Get(item, "quantity")) > 0.0
      && IsNumber(Get(item, "unitPrice")) && NumberOf(Get(item, "unitPrice")) >= 0.0
    ensures r.Pass? ==>
      r.value == InvoiceItem(TextOf(Get(item, "description")), NumberOf(Get(item, "quantity")), NumberOf(Get(item, "unitPrice")))
  {
    if !item.JObject? then Reject(TypeIssue(Some(item)))
    else
      var description := TextAtLeast(Get(item, "description"), 1, Given("Açıklama gereklidir"));
      var quantity := PositiveNumber(Get(item, "quantity"), "Miktar pozitif olmalıdır");
      var unitPrice := NonNegativeNumber(Get(item, "unitPrice"), "Birim fiyat 0 veya daha büyük olmalıdır");
      if description.Reject? then Reject(description.message)
      else if quantity.Reject? then Reject(quantity.message)
      else if unitPrice.Reject? then Reject(unitPrice.message)
      else Pass(InvoiceItem(description.value, quantity.value, unitPrice.value))
  }

  /** Each item of a list in turn; the first failing item's issue. */
  function ParseItems(items: seq<Json>): (r: Checked<seq<InvoiceItem>>)
    ensures r.Pass? <==> forall i :: 0 <= i < |items| ==> ParseInvoiceItem(items[i]).Pass?
    ensures r.Pass? ==> |r.value| == |items| && forall i :: 0 <= i < |items| ==> r.value[i] == ParseInvoiceItem(items[i]).value
  {
    if items == [] then Pass([])
    else
      var first := ParseInvoiceItem(items[0]);
      var rest := ParseItems(items[1..]);
      if first.Reject? then Reject(first.message)
      else if rest.Reject? then Reject(rest.message)
      else Pass([first.value] + rest.value)
  }

  /** `z.array(invoiceItemSchema).min(1, message)`. */
  function ItemList(v: Option<Json>): (r: Checked<seq<InvoiceItem>>)
    ensures r.Pass? <==> v.Some? && v.value.JArray? && |v.value.items| >= 1 && ParseItems(v.value.items).Pass?
    ensures r.Pass? ==> r.value == ParseItems(v.value.items).value
  {
    if !(v.Some? && v.value.JArray?) then Reject(TypeIssue(v))
    else if |v.value.items| < 1 then Reject(Given("En az bir ürün eklenmelidir"))
    else ParseItems(v.value.items)
  }

  /**
   * `z.string().email(message).optional().or(z.literal(""))`: absent, the empty string, or
   * an email. A string that is neither keeps the email check's message; any other kind of
   * value fails both alternatives.
   */
  function OptionalEmailOrEmpty(v: Option<Json>, isEmail: string -> bool): (r: Checked<Option<string>>)
    ensures r.Pass? <==> v.None? || (IsText(v) && (TextOf(v) == "" || isEmail(TextOf(v))))
    ensures r.Pass? ==> r.value == if v.None? then None else Some(TextOf(v))
  {
    if v.None? then Pass(None)
    else if !v.value.JString? then Reject(Default(InvalidUnion))
    else if isEmail(v.value.s) || v.value.s == "" then Pass(Some(v.value.s))
    else Reject(Given("Geçerli bir email giriniz"))
  }

  /** `z.date()`: only a `Date` object passes, and no JSON value is one. */
  function DateObject(v: Option<Json>): (r: Checked<int>)
    ensures r.Reject?
  {
    Reject(TypeIssue(v))
  }

  /** A parsed invoice body; the dates are time values. */
  datatype InvoiceData = InvoiceData(
    clientName: string,
    clientEmail: Option<string>,
    issueDate: int,
    dueDate: int,
    notes: Option<string>,
    items: seq<InvoiceItem>)

  /**
   * The keys of `invoiceSchema` in their declared order, with the two date keys already
   * read by whichever date schema is in use.
   */
  function InvoiceFields(body: Json, isEmail: string -> bool, issueDate: Checked<int>, dueDate: Checked<int>): (r: Checked<InvoiceData>)
    ensures issueDate.Reject? || dueDate.Reject? ==> r.Reject?
    ensures r.Pass? <==>
      && IsText(Get(body, "clientName")) && |TextOf(Get(body, "clientName"))| >= 1
      && OptionalEmailOrEmpty(Get(body, "clientEmail"), isEmail).Pass?
      && issueDate.Pass? && dueDate.Pass?
      && (Get(body, "notes").None? || IsText(Get(body, "notes")))
      && ItemList(Get(body, "items")).Pass?
    ensures r.Pass? ==>
      r.value == InvoiceData(TextOf(Get(body, "clientName")), OptionalEmailOrEmpty(Get(body, "clientEmail"), isEmail).value,
                             issueDate.value, dueDate.value, OptionalText(Get(body, "notes")).value, ItemList(Get(body, "items")).value)
  {
    var clientName := TextAtLeast(Get(body, "clientName"), 1, Given("Müşteri adı gereklidir"));
    var clientEmail := OptionalEmailOrEmpty(Get(body, "clientEmail"), isEmail);
    var notes := OptionalText(Get(body, "notes"));
    var items := ItemList(Get(body, "items"));
    if clientName.Reject? then Reject(clientName.message)
    else if clientEmail.Reject? then Reject(clientEmail.message)
    else if issueDate.Reject? then Reject(issueDate.message)
    else if dueDate.Reject? then Reject(dueDate.message)
    else if notes.Reject? then Reject(notes.message)
    else if items.Reject? then Reject(items.message)
    else Pass(InvoiceData(clientName.value, clientEmail.value, issueDate.value, dueDate.value, notes.value, items.value))
  }

  /** `invoiceSchema` as declared, applied to a JSON request body. */
  function ParseInvoiceAsWritten(body: Json, isEmail: string -> bool): (r: Checked<InvoiceData>) {
    if !body.JObject? then Reject(TypeIssue(Some(body)))
    else InvoiceFields(body, isEmail, DateObject(Get(body, "issueDate")), DateObject(Get(body, "dueDate")))
  }

  /**
   * The schema as declared rejects every JSON body: the invoice form's `Date` values reach
   * the server as strings, which `z.date()` refuses, so no invoice can be created through
   * the API.
   */
  lemma InvoiceAsWrittenRejectsAll(body: Json, isEmail: string -> bool)
    ensures ParseInvoiceAsWritten(body, isEmail).Reject?
  {
  }

  /**
   * `z.coerce.date()` on a date sent as a string: the `Date` constructor's reading of it,
   * given as `parseDate` (`None` for an Invalid Date).
   */
  function CoercedDate(v: Option<Json>, parseDate: string -> Option<int>): (r: Checked<int>)
    ensures r.Pass? <==> IsText(v) && parseDate(TextOf(v)).Some?
    ensures r.Pass? ==> r.value == parseDate(TextOf(v)).value
  {
    if IsText(v) && parseDate(v.value.s).Some? then Pass(parseDate(v.value.s).value)
    else if IsText(v) then Reject(Default(InvalidDate))
    else Reject(TypeIssue(v))
  }

  /** A body the invoice schema accepts once its dates are read from strings. */
  predicate InvoiceBodyValid(body: Json, isEmail: string -> bool, parseDate: string -> Option<int>) {
    var email, items := Get(body, "clientEmail"), Get(body, "items");
    && body.JObject?
    && IsText(Get(body, "clientName")) && |TextOf(Get(body, "clientName"))| >= 1
    && (email.None? || (IsText(email) && (TextOf(email) == "" || isEmail(TextOf(email)))))
    && IsText(Get(body, "issueDate")) && parseDate(TextOf(Get(body, "issueDate"))).Some?
    && IsText(Get(body, "dueDate")) && parseDate(TextOf(Get(body, "dueDate"))).Some?
    && (Get(body, "notes").None? || IsText(Get(body, "notes")))
    && items.Some? && items.value.JArray? && |items.value.items| >= 1
    && forall i :: 0 <= i < |items.value.items| ==> ParseInvoiceItem(items.value.items[i]).Pass?
  }

  /**
   * `invoiceSchema` with its two dates coerced from strings: it accepts exactly the bodies
   * with a client name, an optional (possibly empty) email, two readable dates, optional
   * notes and at least one valid item, and it keeps every field and every item as sent.
   * No check relates the due date to the issue date.
   */
  function ParseInvoice(body: Json, isEmail: string -> bool, parseDate: string -> Option<int>): (r: Checked<InvoiceData>)
    ensures r.Pass? <==> InvoiceBodyValid(body, isEmail, parseDate)
    ensures r.Pass? ==>
      && r.value.clientName == TextOf(Get(body, "clientName"))
      && r.value.clientEmail == (if Get(body, "clientEmail").None? then None else Some(TextOf(Get(body, "clientEmail"))))
      && r.value.issueDate == parseDate(TextOf(Get(body, "issueDate"))).value
      && r.value.dueDate == parseDate(TextOf(Get(body, "dueDate"))).value
      && r.value.notes == (if Get(body, "notes").None? then None else Some(TextOf(Get(body, "notes"))))
      && |r.value.items| == |Get(body, "items").value.items| >= 1
      && forall i :: 0 <= i < |r.value.items| ==> r.value.items[i] == ParseInvoiceItem(Get(body, "items").value.items[i]).value
  {
    if !body.JObject? then Reject(TypeIssue(Some(body)))
    else InvoiceFields(body, isEmail, CoercedDate(Get(body, "issueDate"), parseDate), CoercedDate(Get(body, "dueDate"), parseDate))
  }

  // ---------------------------------------------------------------- projectSchema

  datatype ProjectData = ProjectData(
    name: string,
    description: Option<string>,
    status: ProjectStatus,
    color: string,
    budget: Option<real>,
    startDate: Option<string>,
    endDate: Option<string>)

  /** `z.number().min(0, message).optional().nullable()`: absent and `null` both read as no budget. */
  function OptionalBudget(v: Option<Json>): (r: Checked<Option<real>>)
    ensures r.Pass? <==> v.None? || v == Some(JNull) || (IsNumber(v) && NumberOf(v) >= 0.0)
    ensures r.Pass? ==> r.value == if IsNumber(v) then Some(NumberOf(v)) else None
  {
    if v.None? || v == Some(JNull) then Pass(None)
    else
      var n := NonNegativeNumber(v, "Bütçe negatif olamaz");
      if n.Reject? then Reject(n.message) else Pass(Some(n.value))
  }

  /**
   * `projectSchema`: a non-empty name and colour, a status among the five project statuses,
   * a budget that is absent, `null` or at least 0, and optional description and dates, which
   * are not compared with each other.
   */
  function ParseProject(body: Json): (r: Checked<ProjectData>)
    ensures r.Pass? <==>
      && body.JObject?
      && IsText(Get(body, "name")) && |TextOf(Get(body, "name"))| >= 1
      && (Get(body, "description").None? || IsText(Get(body, "description")))
      && IsText(Get(body, "status")) && ParseProjectStatus(TextOf(Get(body, "status"))).Some?
      && IsText(Get(body, "color")) && |TextOf(Get(body, "color"))| >= 1
      && (Get(body, "budget").None? || Get(body, "budget") == Some(JNull)
          || (IsNumber(Get(body, "budget")) && NumberOf(Get(body, "budget")) >= 0.0))
      && (Get(body, "startDate").None? || IsText(Get(body, "startDate")))
      && (Get(body, "endDate").None? || IsText(Get(body, "endDate")))
    ensures r.Pass? ==>
      && r.value.name == TextOf(Get(body, "name"))
      && ProjectStatusName(r.value.status) == TextOf(Get(body, "status"))
      && r.value.color == TextOf(Get(body, "color"))
      && r.value.description == (if Get(body, "description").None? then None else Some(TextOf(Get(body, "description"))))
      && r.value.budget == (if IsNumber(Get(body, "budget")) then Some(NumberOf(Get(body, "budget"))) else None)
      && (r.value.budget.Some? ==> r.value.budget.value >= 0.0)
      && r.value.startDate == (if Get(body, "startDate").None? then None else Some(TextOf(Get(body, "startDate"))))
      && r.value.endDate == (if Get(body, "endDate").None? then None else Some(TextOf(Get(body, "endDate"))))
  {
    if !body.JObject? then Reject(TypeIssue(Some(body)))
    else
      var name := TextAtLeast(Get(body, "name"), 1, Given("Proje adı gereklidir"));
      var description := OptionalText(Get(body, "description"));
      var status := EnumText(Get(body, "status"), ParseProjectStatus, None);
      var color := TextAtLeast(Get(body, "color"), 1, Default(TooSmall));
      var budget := OptionalBudget(Get(body, "budget"));
      var startDate := OptionalText(Get(body, "startDate"));
      var endDate := OptionalText(Get(body, "endDate"));
      if name.Reject? then Reject(name.message)
      else if description.Reject? then Reject(description.message)
      else if status.Reject? then Reject(status.message)
      else if color.Reject? then Reject(color.message)
      else if budget.Reject? then Reject(budget.message)
      else if startDate.Reject? then Reject(startDate.message)
      else if endDate.Reject? then Reject(endDate.message)
      else Pass(ProjectData(name.value, description.value, status.value, color.value, budget.value, startDate.value, endDate.value))
  }

  // ---------------------------------------------------------------- taskSchema

  datatype TaskData = TaskData(
    title: string,
    description: Option<string>,
    status: TaskStatus,
    priority: TaskPriority,
    dueDate: Option<string>,
    projectId: string,
    assigneeId: Option<string>)

  /**
   * `taskSchema`: a non-empty title and project id, a status among the five task statuses,
   * a priority among the four priorities, and optional description, due date and assignee.
   */
  function ParseTask(body: Json): (r: Checked<TaskData>)
    ensures r.Pass? <==>
      && body.JObject?
      && IsText(Get(body, "title")) && |TextOf(Get(body, "title"))| >= 1
      && (Get(body, "description").None? || IsText(Get(body, "description")))
      && IsText(Get(body, "status")) && ParseTaskStatus(TextOf(Get(body, "status"))).Some?
      && IsText(Get(body, "priority")) && ParseTaskPriority(TextOf(Get(body, "priority"))).Some?
      && (Get(body, "dueDate").None? || IsText(Get(body, "dueDate")))
      && IsText(Get(body, "projectId")) && |TextOf(Get(body, "projectId"))| >= 1
      && (Get(body, "assigneeId").None? || IsText(Get(body, "assigneeId")))
    ensures r.Pass? ==>
      && r.value.title == TextOf(Get(body, "title"))
      && TaskStatusName(r.value.status) == TextOf(Get(body, "status"))
      && TaskPriorityName(r.value.priority) == TextOf(Get(body, "priority"))
      && r.value.projectId == TextOf(Get(body, "projectId"))
      && r.value.description == (if Get(body, "description").None? then None else Some(TextOf(Get(body, "description"))))
      && r.value.dueDate == (if Get(body, "dueDate").None? then None else Some(TextOf(Get(body, "dueDate"))))
      && r.value.assigneeId == (if Get(body, "assigneeId").None? then None else Some(TextOf(Get(body, "assigneeId"))))
  {
    if !body.JObject? then Reject(TypeIssue(Some(body)))
    else
      var title := TextAtLeast(Get(body, "title"), 1, Given("Başlık gereklidir"));
      var description := OptionalText(Get(body, "description"));
      var status := EnumText(Get(body, "status"), ParseTaskStatus, None);
      var priority := EnumText(Get(body, "priority"), ParseTaskPriority, None);
      var dueDate := OptionalText(Get(body, "dueDate"));
      var projectId := TextAtLeast(Get(body, "projectId"), 1, Given("Proje seçiniz"));
      var assigneeId := OptionalText(Get(body, "assigneeId"));
      if title.Reject? then Reject(title.message)
      else if description.Reject? then Reject(description.message)
      else if status.Reject? then Reject(status.message)
      else if priority.Reject? then Reject(priority.message)
      else if dueDate.Reject? then Reject(dueDate.message)
      else if projectId.Reject? then Reject(projectId.message)
      else if assigneeId.Reject? then Reject(assigneeId.message)
      else Pass(TaskData(title.value, description.value, status.value, priority.value, dueDate.value, projectId.value, assigneeId.value))
  }

  // ---------------------------------------------------------------- transactionSchema

  datatype TransactionData = TransactionData(txType: TransactionType, amount: real, description: string, date: string, categoryId: string)

  /**
   * `transactionSchema`: a type INCOME or EXPENSE, a strictly positive amount, and a
   * non-empty description, date and category id. The date is only required to be a
   * non-empty string; it is not read as a date.
   */
  function ParseTransaction(body: Json): (r: Checked<TransactionData>)
    ensures r.Pass? <==>
      && body.JObject?
      && IsText(Get(body, "type")) && TextOf(Get(body, "type")) in {"INCOME", "EXPENSE"}
      && IsNumber(Get(body, "amount")) && NumberOf(Get(body, "amount")) > 0.0
      && IsText(Get(body, "description")) && |TextOf(Get(body, "description"))| >= 1
      && IsText(Get(body, "date")) && |TextOf(Get(body, "date"))| >= 1
      && IsText(Get(body, "categoryId")) && |TextOf(Get(body, "categoryId"))| >= 1
    ensures r.Pass? ==>
      r.value == TransactionData(ParseTransactionType(TextOf(Get(body, "type"))).value, NumberOf(Get(body, "amount")),
                                 TextOf(Get(body, "description")), TextOf(Get(body, "date")), TextOf(Get(body, "categoryId")))
  {
    if !body.JObject? then Reject(TypeIssue(Some(body)))
    else
      var ty := EnumText(Get(body, "type"), ParseTransactionType, None);
      var amount := PositiveNumber(Get(body, "amount"), "Tutar pozitif olmalıdır");
      var description := TextAtLeast(Get(body, "description"), 1, Given("Açıklama gereklidir"));
      var date := TextAtLeast(Get(body, "date"), 1, Given("Tarih gereklidir"));
      var categoryId := TextAtLeast(Get(body, "categoryId"), 1, Given("Kategori seçiniz"));
      if ty.Reject? then Reject(ty.message)
      else if amount.Reject? then Reject(amount.message)
      else if description.Reject? then Reject(description.message)
      else if date.Reject? then Reject(date.message)
      else if categoryId.Reject? then Reject(categoryId.message)
      else Pass(TransactionData(ty.value, amount.value, description.value, date.value, categoryId.value))
  }

  // ---------------------------------------------------------------- userSchema, userEditSchema

  datatype UserData = UserData(name: string, email: string, password: string)

  /**
   * `userSchema`: a non-empty name, an email, a password of at least 6 characters. The
   * first failing key, in that order, gives the message.
   */
  function ParseUser(body: Json, isEmail: string -> bool): (r: Checked<UserData>)
    ensures r.Pass? <==>
      && body.JObject?
      && IsText(Get(body, "name")) && |TextOf(Get(body, "name"))| >= 1
      && IsText(Get(body, "email")) && isEmail(TextOf(Get(body, "email")))
      && IsText(Get(body, "password")) && |TextOf(Get(body, "password"))| >= 6
    ensures r.Pass? ==>
      r.value == UserData(TextOf(Get(body, "name")), TextOf(Get(body, "email")), TextOf(Get(body, "password")))
    ensures body.JObject? && IsText(Get(body, "name")) && |TextOf(Get(body, "name"))| == 0
            ==> r == Reject(Given("İsim gereklidir"))
    ensures body.JObject? && IsText(Get(body, "name")) && |TextOf(Get(body, "name"))| >= 1
            && IsText(Get(body, "email")) && !isEmail(TextOf(Get(body, "email")))
            ==> r == Reject(Given("Geçerli bir email giriniz"))
    ensures body.JObject? && IsText(Get(body, "name")) && |TextOf(Get(body, "name"))| >= 1
            && IsText(Get(body, "email")) && isEmail(TextOf(Get(body, "email")))
            && IsText(Get(body, "password")) && |TextOf(Get(body, "password"))| < 6
            ==> r == Reject(Given("Şifre en az 6 karakter olmalıdır"))
  {
    if !body.JObject? then Reject(TypeIssue(Some(body)))
    else
      var name := TextAtLeast(Get(body, "name"), 1, Given("İsim gereklidir"));
      var email := EmailText(Get(body, "email"), isEmail, "Geçerli bir email giriniz");
      var password := TextAtLeast(Get(body, "password"), 6, Given("Şifre en az 6 karakter olmalıdır"));
      if name.Reject? then Reject(name.message)
      else if email.Reject? then Reject(email.message)
      else if password.Reject? then Reject(password.message)
      else Pass(UserData(name.value, email.value, password.value))
  }

  datatype UserEditData = UserEditData(name: string, email: string, password: Option<string>)

  /** `z.string().min(6, message).optional().or(z.literal(""))`. */
  function OptionalPassword(v: Option<Json>): (r: Checked<Option<string>>)
    ensures r.Pass? <==> v.None? || (IsText(v) && (TextOf(v) == "" || |TextOf(v)| >= 6))
    ensures r.Pass? ==> r.value == if v.None? then None else Some(TextOf(v))
    ensures IsText(v) && 1 <= |TextOf(v)| < 6 ==> r == Reject(Given("Şifre en az 6 karakter olmalıdır"))
  {
    if v.None? then Pass(None)
    else if !v.value.JString? then Reject(Default(InvalidUnion))
    else if |v.value.s| >= 6 || v.value.s == "" then Pass(Some(v.value.s))
    else Reject(Given("Şifre en az 6 karakter olmalıdır"))
  }

  /**
   * `userEditSchema`: as `userSchema`, except that the password may be left out or sent
   * empty; a password of 1 to 5 characters is still refused.
   */
  function ParseUserEdit(body: Json, isEmail: string -> bool): (r: Checked<UserEditData>)
    ensures r.Pass? <==>
      && body.JObject?
      && IsText(Get(body, "name")) && |TextOf(Get(body, "name"))| >= 1
      && IsText(Get(body, "email")) && isEmail(TextOf(Get(body, "email")))
      && (Get(body, "password").None? || (IsText(Get(body, "password"))
          && (TextOf(Get(body, "password")) == "" || |TextOf(Get(body, "password"))| >= 6)))
    ensures r.Pass? ==>
      && r.value.name == TextOf(Get(body, "name")) && r.value.email == TextOf(Get(body, "email"))
      && r.value.password == (if Get(body, "password").None? then None else Some(TextOf(Get(body, "password"))))
  {
    if !body.JObject? then Reject(TypeIssue(Some(body)))
    else
      var name := TextAtLeast(Get(body, "name"), 1, Given("İsim gereklidir"));
      var email := EmailText(Get(body, "email"), isEmail, "Geçerli bir email giriniz");
      var password := OptionalPassword(Get(body, "password"));
      if name.Reject? then Reject(name.message)
      else if email.Reject? then Reject(email.message)
      else if password.Reject? then Reject(password.message)
      else Pass(UserEditData(name.value, email.value, password.value))
  }

  /** Every body the create schema accepts, the edit schema accepts too, with the same fields. */
  lemma UserCreateImpliesEdit(body: Json, isEmail: string -> bool)
    requires ParseUser(body, isEmail).Pass?
    ensures ParseUserEdit(body, isEmail) ==
      Pass(UserEditData(ParseUser(body, isEmail).value.name, ParseUser(body, isEmail).value.email,
                        Some(ParseUser(body, isEmail).value.password)))
  {
  }
}
