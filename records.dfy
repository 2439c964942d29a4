/** The rows of the hosted tables the application reads and writes, with the
    columns and nullability of the generated table types, and the drafts the
    application hands to the store for an insert. Timestamps the store stamps
    on its own (`created_at`, `updated_at` of contracts and listings) are not
    read by the modelled code and are not part of these records. */
module Records {
  import opened Common

  /** The four contract statuses (the contract detail component's status union). */
  datatype Status = Pending | Active | Completed | Cancelled

  /** A row of `contracts`. `progress` and `paid_amount` are nullable columns. */
  datatype Contract = Contract(
    id: string,
    farmerId: string,
    buyerId: string,
    title: string,
    cropName: string,
    quantity: real,
    unit: string,
    pricePerUnit: real,
    totalValue: real,
    qualityParameters: Option<string>,
    paymentTerms: Option<string>,
    startDate: string,
    endDate: string,
    status: Status,
    progress: Option<int>,
    paidAmount: Option<real>)

  /** The object the contract form hands to `createContract`. A numeric field
      that parseFloat could not read is NaN, which the request body carries as
      null: None here. */
  datatype ContractDraft = ContractDraft(
    title: string,
    farmerId: string,
    buyerId: string,
    cropName: string,
    quantity: Option<real>,
    unit: string,
    pricePerUnit: Option<real>,
    totalValue: Option<real>,
    paymentTerms: string,
    qualityParameters: string,
    startDate: string,
    endDate: string,
    status: Status,
    progress: int,
    paidAmount: real)

  /** A row of `crop_listings`; `location` and `description` are nullable. */
  datatype CropListing = CropListing(
    id: string,
    farmerId: string,
    cropName: string,
    quantity: real,
    unit: string,
    pricePerUnit: real,
    location: Option<string>,
    description: Option<string>,
    availableFrom: string,
    availableUntil: string)

  /** The object handed to `createCropListing`; None stands for NaN/null as above. */
  datatype ListingDraft = ListingDraft(
    farmerId: string,
    cropName: string,
    quantity: Option<real>,
    unit: string,
    pricePerUnit: Option<real>,
    location: Option<string>,
    description: Option<string>,
    availableFrom: string,
    availableUntil: string)

  /** A row of `messages`; `read` and `contract_id` are nullable. `createdAt`
      is the instant the store stamped, in milliseconds. */
  datatype MessageRecord = MessageRecord(
    id: string,
    senderId: string,
    receiverId: string,
    contractId: Option<string>,
    content: string,
    read: Option<bool>,
    createdAt: int)

  /** The object handed to `sendMessage`; `contractId` is None when the key is absent. */
  datatype MessageDraft = MessageDraft(
    senderId: string,
    receiverId: string,
    content: string,
    contractId: Option<string>)

  /** The signed-in user's row of `profiles`, as the auth context holds it. */
  datatype Profile = Profile(
    id: string,
    fullName: string,
    userType: string,
    businessName: Option<string>,
    location: Option<string>,
    profileImageUrl: Option<string>)

  /** A day picked in a calendar: its instant in milliseconds, for comparisons,
      and the text `toISOString()` renders for it. */
  datatype Day = Day(time: int, iso: string)

  /** The result of a store call: the table afterwards and the row the
      store answered with (None when it reported an error). */
  datatype Write<T> = Write(rows: map<string, T>, result: Option<T>)

  /** The calendar pickers disable every day before `earliest`, or before
      now while there is none. */
  predicate DayDisabled(day: Day, earliest: Option<Day>, now: int) {
    day.time < (if earliest.Some? then earliest.value.time else now)
  }
}
