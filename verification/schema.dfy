/** The enumerations of the hosted database schema. */
module Schema {

  /** `app_role`. */
  datatype AppRole = SuperAdmin | CityManager | SalonManager | Staff | Customer

  /** `booking_status`. */
  datatype BookingStatus = Pending | Confirmed | Completed | Cancelled | NoShow

  /** `discount_type`. */
  datatype DiscountType = Percentage | Flat

}
