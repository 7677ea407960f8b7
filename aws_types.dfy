/** The records the dashboard passes between its layers (types/aws.ts). */
module AwsTypes {
  import opened Wrappers

  /** Temporary credentials; `expiration` is in Unix seconds. */
  datatype AwsCredentials = AwsCredentials(
    accessKeyId: string,
    secretAccessKey: string,
    sessionToken: string,
    expiration: int)

  datatype MonthlyCost = MonthlyCost(month: string, amount: real, currency: string)

  datatype ServiceCost = ServiceCost(service: string, amount: real, percentage: real)

  /** One forecast point; the optional prediction-interval bounds are never
      filled in by the dashboard and are not modelled. */
  datatype ForecastData = ForecastData(timePeriod: string, meanValue: string)

  datatype RecommendationType = ReservedInstance | Rightsizing | IdleResource

  datatype Priority = High | Medium | Low

  datatype Recommendation = Recommendation(
    id: string,
    recType: RecommendationType,
    title: string,
    description: string,
    potentialSavings: real,
    service: string,
    resourceId: Option<string>,
    priority: Priority)

  datatype CostExplorerResponse = CostExplorerResponse(
    monthlyCosts: seq<MonthlyCost>,
    serviceBreakdown: seq<ServiceCost>,
    totalCost: real,
    currency: string)

  datatype ForecastResponse = ForecastResponse(forecast: seq<ForecastData>, actual: seq<MonthlyCost>)

  datatype RecommendationsResponse = RecommendationsResponse(
    recommendations: seq<Recommendation>,
    totalPotentialSavings: real)
}
