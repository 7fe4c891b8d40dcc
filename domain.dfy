/** The application's records (types.ts). Numbers are modelled as `real`
    (exact arithmetic); a field the source marks optional is an `Option`. */
module Domain {
  import opened Wrappers

  datatype Customer = Customer(id: string, name: string, address: string, email: string)

  datatype InvoiceItem = InvoiceItem(id: string, description: string, quantity: real, rate: real)

  datatype InvoiceStatus = Paid | Pending | Overdue | Draft

  /** The status as the string the application stores and compares. */
  function StatusName(s: InvoiceStatus): string {
    match s
    case Paid => "Paid"
    case Pending => "Pending"
    case Overdue => "Overdue"
    case Draft => "Draft"
  }

  datatype Invoice = Invoice(
    id: string,
    customer: Customer,
    issueDate: string,
    dueDate: string,
    items: seq<InvoiceItem>,
    status: InvoiceStatus,
    notes: Option<string>)

  /** A business profile. The enumerated fields are kept as strings because
      the profile is read back from storage without any shape check. */
  datatype BusinessProfile = BusinessProfile(
    businessName: string,
    email: string,
    address: string,
    businessType: Option<string>,
    industry: Option<string>,
    annualTurnover: Option<string>,
    hasEmployees: Option<bool>,
    numberOfEmployees: Option<real>)

  datatype ComplianceStatus = Pending | Overdue | Completed | PaymentProcessing

  datatype Priority = High | Medium | Low

  datatype ComplianceTask = ComplianceTask(
    id: string,
    title: string,
    description: string,
    dueDate: string,
    estimatedAmount: real,
    status: ComplianceStatus,
    priority: Priority)

  datatype DocumentStatus = NotUploaded | Uploading | Uploaded | Verified

  datatype CompanyDocument = CompanyDocument(id: string, name: string, description: string, status: DocumentStatus)

  datatype Role = User | Model

  datatype ChatMessage = ChatMessage(role: Role, content: string)

  datatype ProjectStatus = OnTrack | AtRisk | Completed

  datatype Project = Project(id: string, name: string, client: string, status: ProjectStatus, deadline: string, profitability: real)
}
