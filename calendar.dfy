/** Calendar dates, already parsed (`pd.to_datetime`), as day numbers. */
module Calendar {

  /** Days since 1970-01-01; the order of day numbers is the order of dates. */
  type Date = int

  /** 2021-01-15, the day the pink morsel price went up: 51 years of 365 days, 13 leap days, 14 more days. */
  const PriceIncreaseDate: Date := 51 * 365 + 13 + 14
}
