/** The two kinds of record the collector reads from the billing provider on
    every scrape. Only the fields the aggregation looks at are kept. */
module Records {

  /** An active subscription: its plan `name` and its `links.mandate`. */
  datatype Subscription = Subscription(name: string, mandate: string)

  /** An active mandate: its `id` and its `links.customer`. */
  datatype Mandate = Mandate(id: string, customer: string)
}
