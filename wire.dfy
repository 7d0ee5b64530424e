/**
 * The event record the client posts, with the seven fields of the RulesKeeper
 * `Metric` protocol-buffer message (field numbers 1 to 7, in order).
 */
module Wire {

  /**
   * `Metric.UnitType`. Every call site in this system sets COUNTER; the enum's
   * other values are declared in the protocol-buffer schema, which is not part
   * of this model, and stand here as `OtherUnit` with their enum number.
   */
  datatype UnitType = Counter | OtherUnit(number: nat)

  datatype Metric = Metric(
    dataProvider: string,   // 1: data_provider
    hierarchyKey: string,   // 2: hierarchy_key
    technicalKey: string,   // 3: technical_key
    shortName: string,      // 4: short_name
    eventDate: string,      // 5: event_date, epoch milliseconds as decimal text
    unit: UnitType,         // 6: unit
    value: string           // 7: value, decimal text
  )
}
