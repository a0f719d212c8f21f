/**
  Default hyperparameters of the optimizers (src/optimization/optimization_config.c).
  Both optimizers copy these into every instance they construct and never change them.
 */
module OptimizationConfig {
  /** The optimizers a model can be trained with */
  datatype Optimizer = GradientDescentChoice | AdamChoice

  const GradientDescentLearningRate: real := 0.001

  const AdamLearningRate: real := 0.001
  const AdamBeta1: real := 0.9
  const AdamBeta2: real := 0.999
  const AdamEpsilon: real := 0.00000001
}
